# WebLN sandbox — a Dafny model of its sequential logic

The WebLN sandbox is a small React page for trying out a wallet provider that a
browser extension injects as `window.webln`. Almost all of it is rendering and
provider calls. This project models the three pieces of sequential logic in it:

- **The accounts store** (`accounts.dfy`, module `Accounts`). It holds an ordered list
  of connected accounts and an optional selected account. `setSelectedAccount`
  changes only the selection. `addAccount` appends an account and selects it.
  `loadAccountInfo` asks the provider for the node's identity. It adds that node as an
  account only when no listed account has the same node pubkey. The store is the
  class `AccountsStore`. Its effect is also given as pure functions on a
  `StoreState` value (`Selected`, `Added`, `Loaded`, and `Run` over a sequence of
  actions). The lemmas prove that over any run of actions pubkeys stay pairwise
  distinct and listed accounts are never disturbed, and that over any run whose
  selections come from the list (the only ones the UI offers,
  src/components/Accounts.tsx:55) the selection also stays in the list.
- **Boost extraction** (`podcast_reader.dfy`, module `PodcastReader`). `readBoosts`
  asks with `reversed: true` for at most 1000 invoices; boosts follow the order in
  which the provider lists them. It walks every invoice and every HTLC in it. For
  each HTLC with a non-empty custom record under type `7629169`, it decodes
  the record (base64, then JSON) and collects the result. The nested loop is the
  method `CollectBoosts`. It is proved equal to `DecodeAll(InvoiceRecords(..))`, a
  specification of which records are met, in which order, and how they are
  decoded. One failed decode aborts the whole scan, and `BoostReader.ReadBoosts`
  then publishes nothing.
- **The method explorer** (`method_explorer.dfy`, module `MethodExplorer`). `getArgs`
  looks up a method's default-argument template. Only `queryroutes` and
  `connectpeer` have one. For those two it prompts the user with the template
  serialised as JSON, and it parses the reply. An empty or dismissed reply cancels.
  The click handler (`Explorer.Click`) sets the current method, clears the error and
  sets loading. It then sends the request unless the selection was cancelled or
  unparsable. It records the result or the error and clears loading. After a
  successful request it reloads the account info into the accounts store.

`webln.dfy` (module `WebLN`) holds the data shapes: the method-name union, the
`getInfo` answer, the invoice and HTLC records, JSON values, and how each provider
call can settle. `wrappers.dfy` holds `Option`.

The provider, the browser and the user are inputs. Each handler takes how the
provider call settled (`InfoReply`, `ListReply`, `RequestReply`), the user's prompt
answer, and the browser's `JSON.stringify`, `JSON.parse` and base64-then-JSON decode
as function-valued parameters. A handler that sends a request returns the request it
sent, so "no request was made" is part of what its contract states.

Two facts about the code shape the model:

- `getArgs` has no per-field form or type coercion; it parses the whole prompt text
  (src/components/MethodExplorer.tsx:141).
- The scan does not isolate a failing record. One `try` wraps both loops
  (src/components/PodcastReader.tsx:18-35), so one failure discards the whole batch.
  `CollectBoosts` and `ReadBoosts` model that behaviour.

## Model

| member | source | states |
|---|---|---|
| `Accounts.AccountsStore.constructor` | src/components/Accounts.tsx:19-21 | The store starts with no accounts and no selection, and that state is consistent. |
| `Accounts.AccountsStore.SetSelectedAccount` | src/components/Accounts.tsx:22 | Only the selection changes; the list is unchanged; selecting a listed account keeps the store consistent. |
| `Accounts.AccountsStore.AddAccount` | src/components/Accounts.tsx:23-24 | The new account is appended after all earlier ones, in their order, and becomes the selection. |
| `Accounts.AccountsStore.LoadAccountInfo` | src/components/Accounts.tsx:76-102 | The new state is `Loaded(old state, reply)`: no provider or a failed `enable`/`getInfo` changes nothing; otherwise the node is added only when its pubkey is new; consistency is preserved. |
| `Accounts.HasPubkey` | src/components/Accounts.tsx:85-91 | The `.some` test is true exactly when some listed account has the given node pubkey. |
| `Accounts.Loaded` | src/components/Accounts.tsx:85-95 | With a `getInfo` answer whose pubkey no listed account has, the store is the old one plus that account, appended and selected; in every other case the store is unchanged. |
| `Accounts.LoadedAddsOnlyNew` | src/components/Accounts.tsx:85-95 | A load changes the list if and only if the pubkey is new, and any change appends exactly the new account. |
| `Accounts.LoadedConsistent` | src/components/Accounts.tsx:85-95 | One load keeps pubkeys pairwise distinct and keeps the selection in the list. |
| `Accounts.SelectedConsistent` | src/components/Accounts.tsx:55 | Selecting an account that is listed keeps the store consistent. |
| `Accounts.RunConsistent` | src/components/Accounts.tsx:22-24 | Any sequence of loads and selections of listed accounts keeps pubkeys distinct (they key the rendered list, line 49) and the selection in the list. |
| `Accounts.InitialRunConsistent` | src/components/Accounts.tsx:20-24 | Starting from the initial empty store, every such run ends with distinct pubkeys and a listed or absent selection. |
| `Accounts.RunKeepsUnique` | src/components/Accounts.tsx:85-95 | Any sequence of loads and selections, whatever is selected, keeps pubkeys pairwise distinct (they key the rendered list, line 49). |
| `Accounts.RunKeepsPrefix` | src/components/Accounts.tsx:23-24 | Across any run, the accounts already listed stay at the front of the list, unchanged and in order. |
| `PodcastReader.ContributionCharacterized` | src/components/PodcastReader.tsx:26-27 | An HTLC contributes at most one record. It contributes exactly when its record map exists and holds a non-empty value under `7629169`, and then it contributes that value. |
| `PodcastReader.HtlcRecordsAppend` | src/components/PodcastReader.tsx:25-30 | The records met among HTLCs follow HTLC order: the records of a concatenation are the records of each part, in turn. |
| `PodcastReader.InvoiceRecordsAppend` | src/components/PodcastReader.tsx:24-31 | The records met among invoices follow invoice order in the same way. |
| `PodcastReader.HtlcRecordsCount` | src/components/PodcastReader.tsx:25-30 | Exactly one record is met per HTLC that has a non-empty boost record. |
| `PodcastReader.InvoiceRecordsCount` | src/components/PodcastReader.tsx:24-31 | Over all invoices, the number of records met equals the number of contributing HTLCs. |
| `PodcastReader.DecodeAllCharacterized` | src/components/PodcastReader.tsx:28 | Decoding succeeds if and only if every record decodes. On success there is one boost per record, in order, each the decode of that record. |
| `PodcastReader.DecodeAllAppend` | src/components/PodcastReader.tsx:18-36 | Decoding a concatenation gives the two decodings joined, and one failing part fails the whole. |
| `PodcastReader.BoostsCount` | src/components/PodcastReader.tsx:23-33 | On success the number of boosts equals the number of HTLCs with a non-empty `7629169` record. |
| `PodcastReader.AbortedScanFails` | src/components/PodcastReader.tsx:18-36 | A failed decode at any HTLC of any invoice makes the whole listing's scan fail. |
| `PodcastReader.CollectBoosts` | src/components/PodcastReader.tsx:23-31 | The nested loop returns `Boosts(response, decode)`. This is the decodes of the contributing records in invoice order, then HTLC order, or nothing at all if any decode fails. |
| `PodcastReader.BoostReader.constructor` | src/components/PodcastReader.tsx:10-11 | The reader starts not loading and with no boosts. |
| `PodcastReader.BoostReader.ReadBoosts` | src/components/PodcastReader.tsx:12-39 | Without a provider, nothing is sent and no state changes. Otherwise the query is `reversed: true, num_max_invoices: 1000`; boosts are published only when the listing arrived and the whole scan succeeded; loading ends cleared. |
| `MethodExplorer.DefaultArgs` | src/components/MethodExplorer.tsx:114-134 | A method has a default-argument template if and only if it is `queryroutes` or `connectpeer`, stated both on the constructors and on the wire names the `switch` matches. |
| `MethodExplorer.GetArgs` | src/components/MethodExplorer.tsx:135-143 | With no template: no arguments, not cancelled, whatever the prompt would say. With a template, the prompt's reply is read with a dismissal as `""`. An empty reply cancels with no arguments. A non-empty reply yields its parse, not cancelled. An unparsable reply makes the selection fail with that text. |
| `MethodExplorer.PromptSeesSerialisedTemplate` | src/components/MethodExplorer.tsx:136-137 | For a method with a template, the selection depends on the prompt only through its answer to the template's JSON serialisation. |
| `MethodExplorer.Explorer.constructor` | src/components/MethodExplorer.tsx:16-25 | No current method, not loading, no error and no output at first. |
| `MethodExplorer.Explorer.Click` | src/components/MethodExplorer.tsx:43-67 | Afterwards the current method is the clicked one and loading is cleared. A request is sent if and only if the selection is neither cancelled nor unparsable. Otherwise the error is `Cancelled` or the parse error. On success the output is the provider's result, the error stays cleared and the accounts store is reloaded. On rejection the error is the provider's reason and the output is as before. |

## Left out

- Rendering (JSX, CSS classes, the `Loading` spinner), `src/App.tsx` and `src/components/NodeStats.tsx`: display only.
- Provider calls (`enable`, `getInfo`, `request`), `window.prompt`, `alert` and `console`. They are I/O. Their outcomes are parameters, and `alert`/`console` output is not modelled.
- `atob`, `JSON.parse` and `JSON.stringify` are browser built-ins. They are function-valued parameters, and no base64 or JSON grammar is implemented.
- Asynchrony: each handler is one sequential step. The interval in which `isLoading` is true while the provider call is pending is not observable in a one-step model. Only the final `false` is stated. The account reload started by `Click` is not awaited in the source; the model runs it within the click.
- JavaScript reference identity of account objects (`account === selectedAccount`) is modelled as value equality of `Account` values.
- MethodExplorer.GetArgs: `cancelled` is `undefined` in the source when there is no template. It is modelled as `false`, which is how its only caller reads it.
- JSON numbers are modelled as integers. The template's `500` is one; the decoded boosts and `request` results can hold fractional numbers the model cannot represent, but they pass through unread and no property depends on them.
- Of the `listinvoices` record shape, only the fields the scan reads are modelled: each invoice's `htlcs` and each HTLC's `custom_records`.
- Display formatting of errors (src/components/MethodExplorer.tsx:95-105).
