/**
  The accounts store: an ordered list of accounts the user has connected and the one
  currently selected. Accounts are added only through `LoadAccountInfo`, which skips a
  node whose pubkey is already listed, so pubkeys stay pairwise distinct (the account
  list is rendered keyed by pubkey).
*/
module Accounts {
  import opened Wrappers
  import opened WebLN

  datatype Account = Account(info: GetInfoResponse)

  function PubkeyOf(a: Account): string {
    a.info.node.pubkey
  }

  /** The store's contents at one moment. */
  datatype StoreState = StoreState(accounts: seq<Account>, selectedAccount: Option<Account>)

  /** What the store holds before any action. */
  const Initial: StoreState := StoreState([], None)

  /** Whether some listed account has node pubkey `pubkey` (the `.some` test). */
  function HasPubkey(accounts: seq<Account>, pubkey: string): (r: bool)
    ensures r <==> exists i :: 0 <= i < |accounts| && PubkeyOf(accounts[i]) == pubkey
  {
    if accounts == [] then false
    else if PubkeyOf(accounts[0]) == pubkey then true
    else
      var r := HasPubkey(accounts[1..], pubkey);
      assert forall i :: 1 <= i < |accounts| ==> accounts[i] == accounts[1..][i - 1];
      r
  }

  ghost predicate UniquePubkeys(accounts: seq<Account>) {
    forall i, j :: 0 <= i < j < |accounts| ==> PubkeyOf(accounts[i]) != PubkeyOf(accounts[j])
  }

  ghost predicate SelectionListed(s: StoreState) {
    s.selectedAccount.Some? ==> s.selectedAccount.value in s.accounts
  }

  /** The invariant the UI relies on: distinct pubkeys, and a selection drawn from the list. */
  ghost predicate Consistent(s: StoreState) {
    UniquePubkeys(s.accounts) && SelectionListed(s)
  }

  /** One user-visible action on the store: a click on an account button, or a load. */
  datatype StoreAction = Select(account: Account) | Load(reply: InfoReply)

  /** The effect of `setSelectedAccount`: the selection changes, the list does not. */
  function Selected(s: StoreState, account: Account): (r: StoreState)
    ensures r.accounts == s.accounts && r.selectedAccount == Some(account)
  {
    s.(selectedAccount := Some(account))
  }

  /** The effect of `addAccount`: append at the end and select the new account. */
  function Added(s: StoreState, account: Account): (r: StoreState)
    ensures |r.accounts| == |s.accounts| + 1 && r.accounts[..|s.accounts|] == s.accounts
    ensures r.accounts[|s.accounts|] == account && r.selectedAccount == Some(account)
  {
    StoreState(s.accounts + [account], Some(account))
  }

  /** The effect of `loadAccountInfo` given how the provider calls turned out. */
  function Loaded(s: StoreState, reply: InfoReply): (r: StoreState)
    ensures (reply.Info? &&
             !(exists i :: 0 <= i < |s.accounts| && PubkeyOf(s.accounts[i]) == reply.info.node.pubkey))
            ==> r == Added(s, Account(reply.info))
    ensures (!reply.Info? ||
             (exists i :: 0 <= i < |s.accounts| && PubkeyOf(s.accounts[i]) == reply.info.node.pubkey))
            ==> r == s
  {
    match reply
    case Info(info) =>
      if HasPubkey(s.accounts, info.node.pubkey) then s else Added(s, Account(info))
    case _ => s
  }

  function Step(s: StoreState, action: StoreAction): StoreState {
    match action
    case Select(a) => Selected(s, a)
    case Load(reply) => Loaded(s, reply)
  }

  /** The store after a sequence of actions, applied in order. */
  function Run(s: StoreState, actions: seq<StoreAction>): StoreState
    decreases |actions|
  {
    if actions == [] then s else Run(Step(s, actions[0]), actions[1..])
  }

  /** The UI offers for selection only the accounts it lists. */
  ghost predicate SelectsListed(s: StoreState, actions: seq<StoreAction>)
    decreases |actions|
  {
    actions == [] ||
    ((actions[0].Select? ==> actions[0].account in s.accounts) &&
     SelectsListed(Step(s, actions[0]), actions[1..]))
  }

  /** A load adds an account exactly when its pubkey is new, and then at the end. */
  lemma LoadedAddsOnlyNew(s: StoreState, info: GetInfoResponse)
    ensures Loaded(s, Info(info)).accounts != s.accounts <==>
              forall a :: a in s.accounts ==> PubkeyOf(a) != info.node.pubkey
    ensures Loaded(s, Info(info)).accounts != s.accounts ==>
              Loaded(s, Info(info)).accounts == s.accounts + [Account(info)]
  {
  }

  /** One load keeps pubkeys distinct and the selection listed. */
  lemma LoadedConsistent(s: StoreState, reply: InfoReply)
    requires Consistent(s)
    ensures Consistent(Loaded(s, reply))
  {
  }

  /** Selecting a listed account keeps the store consistent. */
  lemma SelectedConsistent(s: StoreState, account: Account)
    requires Consistent(s) && account in s.accounts
    ensures Consistent(Selected(s, account))
  {
  }

  /** Pubkeys stay distinct and the selection stays listed across any run of actions
      whose selections come from the list, starting from any consistent store. */
  lemma {:induction false} RunConsistent(s: StoreState, actions: seq<StoreAction>)
    requires Consistent(s) && SelectsListed(s, actions)
    ensures Consistent(Run(s, actions))
    decreases |actions|
  {
    if actions != [] {
      match actions[0] {
        case Select(a) => SelectedConsistent(s, a);
        case Load(reply) => LoadedConsistent(s, reply);
      }
      RunConsistent(Step(s, actions[0]), actions[1..]);
    }
  }

  /** Pubkeys stay distinct across any run of actions, whatever is selected. */
  lemma {:induction false} RunKeepsUnique(s: StoreState, actions: seq<StoreAction>)
    requires UniquePubkeys(s.accounts)
    ensures UniquePubkeys(Run(s, actions).accounts)
    decreases |actions|
  {
    if actions != [] {
      match actions[0] {
        case Select(_) =>
        case Load(reply) =>
          // the selection plays no part in the list a load produces
          LoadedConsistent(s.(selectedAccount := None), reply);
      }
      RunKeepsUnique(Step(s, actions[0]), actions[1..]);
    }
  }

  /** From the empty store, every run the UI can produce keeps pubkeys distinct
      and the selection listed. */
  lemma InitialRunConsistent(actions: seq<StoreAction>)
    requires SelectsListed(Initial, actions)
    ensures UniquePubkeys(Run(Initial, actions).accounts)
    ensures SelectionListed(Run(Initial, actions))
  {
    RunConsistent(Initial, actions);
  }

  /** Accounts already in the list are never removed, reordered or replaced. */
  lemma {:induction false} RunKeepsPrefix(s: StoreState, actions: seq<StoreAction>)
    ensures |s.accounts| <= |Run(s, actions).accounts|
    ensures Run(s, actions).accounts[..|s.accounts|] == s.accounts
    decreases |actions|
  {
    if actions != [] {
      var t := Step(s, actions[0]);
      RunKeepsPrefix(t, actions[1..]);
      assert t.accounts[..|s.accounts|] == s.accounts;
      var u := Run(t, actions[1..]).accounts;
      assert u[..|s.accounts|] == u[..|t.accounts|][..|s.accounts|];
    }
  }

  /** The store object: the two fields the UI reads and the two setters, plus
      `loadAccountInfo`, which consults the provider and then maybe adds. */
  class AccountsStore {
    var accounts: seq<Account>
    var selectedAccount: Option<Account>

    function State(): StoreState
      reads this
    {
      StoreState(accounts, selectedAccount)
    }

    ghost predicate Valid()
      reads this
    {
      Consistent(State())
    }

    constructor ()
      ensures accounts == [] && selectedAccount == None
      ensures State() == Initial && Valid()
    {
      accounts := [];
      selectedAccount := None;
    }

    method SetSelectedAccount(account: Account)
      modifies this
      ensures accounts == old(accounts) && selectedAccount == Some(account)
      ensures State() == Selected(old(State()), account)
      ensures old(Valid()) && account in accounts ==> Valid()
    {
      selectedAccount := Some(account);
      if old(Valid()) && account in accounts {
        SelectedConsistent(old(State()), account);
      }
    }

    method AddAccount(account: Account)
      modifies this
      ensures accounts == old(accounts) + [account] && selectedAccount == Some(account)
      ensures State() == Added(old(State()), account)
      ensures SelectionListed(State())
    {
      accounts := accounts + [account];
      selectedAccount := Some(account);
    }

    /** `loadAccountInfo`: with no provider, or when `enable`/`getInfo` fails, nothing
        changes; otherwise the node is added unless its pubkey is already listed. */
    method LoadAccountInfo(reply: InfoReply)
      modifies this
      ensures State() == Loaded(old(State()), reply)
      ensures !reply.Info? ==> accounts == old(accounts) && selectedAccount == old(selectedAccount)
      ensures old(Valid()) ==> Valid()
    {
      match reply {
        case Info(info) =>
          if !HasPubkey(accounts, info.node.pubkey) {
            AddAccount(Account(info));
          }
        case _ =>
      }
      if old(Valid()) {
        LoadedConsistent(old(State()), reply);
      }
    }
  }
}
