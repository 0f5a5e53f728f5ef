/**
  The data shapes exchanged with the injected WebLN provider: the method names it
  accepts in `request`, the node identity returned by `getInfo`, and the invoice /
  HTLC records returned by `request("listinvoices", ...)`. Of the invoice and
  HTLC records only the fields the boost scan reads are kept (`htlcs`, `custom_records`);
  the node identity keeps the fields the pages display.
*/
module WebLN {
  import opened Wrappers

  /** A JSON value: what `JSON.parse` produces and what the provider answers with.
      Numbers are kept as integers, which is all the sandbox's own templates use. */
  datatype Json =
    | JNull
    | JBool(b: bool)
    | JNumber(n: int)
    | JString(s: string)
    | JArray(items: seq<Json>)
    | JObject(members: seq<(string, Json)>)

  /** The method names of `request` the sandbox knows about. */
  datatype Method =
    | GetInfo | ListChannels | ListInvoices | ChannelBalance | WalletBalance
    | OpenChannel | ConnectPeer | DisconnectPeer | EstimateFee | GetChanInfo
    | GetNetworkInfo | GetNodeInfo | GetTransactions | ListPayments | ListPeers
    | LookupInvoice | QueryRoutes | VerifyMessage | SendToRoute | DecodePayReq
    | RouterMc | AddInvoice

  /** The wire name of each method, as passed to `request`. */
  function MethodName(m: Method): string {
    match m
    case GetInfo => "getinfo"
    case ListChannels => "listchannels"
    case ListInvoices => "listinvoices"
    case ChannelBalance => "channelbalance"
    case WalletBalance => "walletbalance"
    case OpenChannel => "openchannel"
    case ConnectPeer => "connectpeer"
    case DisconnectPeer => "disconnectpeer"
    case EstimateFee => "estimatefee"
    case GetChanInfo => "getchaninfo"
    case GetNetworkInfo => "getnetworkinfo"
    case GetNodeInfo => "getnodeinfo"
    case GetTransactions => "gettransactions"
    case ListPayments => "listpayments"
    case ListPeers => "listpeers"
    case LookupInvoice => "lookupinvoice"
    case QueryRoutes => "queryroutes"
    case VerifyMessage => "verifymessage"
    case SendToRoute => "sendtoroute"
    case DecodePayReq => "decodepayreq"
    case RouterMc => "routermc"
    case AddInvoice => "addinvoice"
  }

  /** The node identity part of a `getInfo` answer. */
  datatype Node = Node(alias: string, pubkey: string, color: string)

  /** The networks a provider can report supporting. */
  datatype Network = Lightning

  /** A `getInfo` answer, with the sandbox's extension fields `version`, `supports`
      and `methods`. */
  datatype GetInfoResponse =
    GetInfoResponse(node: Node, version: string, supports: seq<Network>, methods: seq<Method>)

  /** One payment part of an invoice. `customRecords` is `None` when the record map is absent. */
  datatype Htlc = Htlc(customRecords: Option<map<string, string>>)

  datatype Invoice = Invoice(htlcs: seq<Htlc>)

  datatype ListInvoicesResponse = ListInvoicesResponse(invoices: seq<Invoice>)

  /** The arguments of `request("listinvoices", ...)` that the sandbox sets. */
  datatype ListInvoicesQuery = ListInvoicesQuery(reversed: bool, numMaxInvoices: int)

  /** A generic provider request: a method name and its optional argument object. */
  datatype Request = Request(name: Method, args: Option<Json>)

  /** How the provider's promise for a generic request settles. */
  datatype RequestReply = Resolved(result: Json) | Rejected(reason: Json)

  /** How the provider's promise for `listinvoices` settles. */
  datatype ListReply = Listed(response: ListInvoicesResponse) | ListFailed(reason: Json)

  /** How `enable()` followed by `getInfo()` turns out, including the absence of a provider. */
  datatype InfoReply =
    | NoProvider
    | EnableFailed(reason: Json)
    | GetInfoFailed(reason: Json)
    | Info(info: GetInfoResponse)
}
