/**
  The method explorer: a button per provider method. A click picks the method's
  arguments (for the two methods with a default-argument template, by prompting the
  user with that template as JSON and parsing the reply), sends the request, and shows
  either the result or the error. A successful request also reloads the account info.
*/
module MethodExplorer {
  import opened Wrappers
  import opened WebLN
  import Accounts

  /** The browser facilities the explorer calls: `window.prompt` (given its pre-filled
      text; `None` when the user dismisses it), `JSON.stringify`, and `JSON.parse`
      (`None` when it throws). */
  datatype Browser = Browser(
    prompt: string -> Option<string>,
    stringify: Json -> string,
    parse: string -> Option<Json>)

  /** What `getArgs` hands back: the argument object (if any) and whether the user
      cancelled; or the text that `JSON.parse` rejected, which makes `getArgs` throw. */
  datatype ArgSelection = Selection(args: Option<Json>, cancelled: bool) | InvalidArgs(text: string)

  /** What ends up in `requestError`. */
  datatype RequestError = Cancelled | ArgsParseError(text: string) | ProviderError(reason: Json)

  const DefaultPubkey: string := "03147d26d4c6cfa2add79543bb62d08b11e58e3f13939fbd1487ad620f117ba7e3"

  /** The default-argument template of a method: the `switch` on the method's wire
      name has a case only for "queryroutes" and "connectpeer". */
  function DefaultArgs(m: Method): (r: Option<Json>)
    ensures r.Some? <==> m == QueryRoutes || m == ConnectPeer
    ensures r.Some? <==> MethodName(m) == "queryroutes" || MethodName(m) == "connectpeer"
  {
    match m
    case QueryRoutes =>
      Some(JObject([("amt", JNumber(500)), ("pub_key", JString(DefaultPubkey))]))
    case ConnectPeer =>
      Some(JObject([("addr", JObject([("pubkey", JString(DefaultPubkey)), ("host", JString("localhost:8082"))]))]))
    case _ => None
  }

  /** The text `getArgs` goes on with: the prompt's reply to the serialised template,
      with a dismissed prompt read as the empty string. */
  function ArgsText(template: Json, browser: Browser): string {
    browser.prompt(browser.stringify(template)).GetOr("")
  }

  /** `getArgs`: only a method with a template prompts; an empty or dismissed prompt
      cancels; any other reply is parsed as the argument object. */
  function GetArgs(m: Method, browser: Browser): (r: ArgSelection)
    ensures DefaultArgs(m).None? ==> r == Selection(None, false)
    ensures r.Selection? && r.cancelled <==>
              DefaultArgs(m).Some? && ArgsText(DefaultArgs(m).value, browser) == ""
    ensures r.Selection? && r.args.Some? <==>
              DefaultArgs(m).Some? && ArgsText(DefaultArgs(m).value, browser) != "" &&
              browser.parse(ArgsText(DefaultArgs(m).value, browser)).Some?
    ensures r.Selection? && r.args.Some? ==>
              !r.cancelled && r.args == browser.parse(ArgsText(DefaultArgs(m).value, browser))
    ensures r.InvalidArgs? <==>
              DefaultArgs(m).Some? && ArgsText(DefaultArgs(m).value, browser) != "" &&
              browser.parse(ArgsText(DefaultArgs(m).value, browser)).None?
    ensures r.InvalidArgs? ==> r.text == ArgsText(DefaultArgs(m).value, browser)
  {
    match DefaultArgs(m)
    case None => Selection(None, false)
    case Some(template) =>
      var text := ArgsText(template, browser);
      if text == "" then Selection(None, true)
      else
        match browser.parse(text)
        case Some(args) => Selection(Some(args), false)
        case None => InvalidArgs(text)
  }

  /** For a method with a template, the prompt is asked exactly the template's JSON
      serialisation: two browsers whose prompts answer that text alike, and whose
      parsers agree, select alike. */
  lemma PromptSeesSerialisedTemplate(m: Method, b1: Browser, b2: Browser)
    requires DefaultArgs(m).Some?
    requires b1.prompt(b1.stringify(DefaultArgs(m).value)) == b2.prompt(b2.stringify(DefaultArgs(m).value))
    requires forall t :: b1.parse(t) == b2.parse(t)
    ensures GetArgs(m, b1) == GetArgs(m, b2)
  {
  }

  /** The explorer's component state. */
  class Explorer {
    var currentMethod: Option<Method>
    var isLoading: bool
    var requestError: Option<RequestError>
    var requestOutput: Option<Json>

    constructor ()
      ensures currentMethod == None && !isLoading && requestError == None && requestOutput == None
    {
      currentMethod := None;
      isLoading := false;
      requestError := None;
      requestOutput := None;
    }

    /** The click handler of method `m`'s button. `browser` answers the prompt, `reply`
        is how the provider settles the request if one is sent, and `info` how the
        account reload that follows a successful request turns out. Returns the request
        sent to the provider, if any. */
    method Click(m: Method, browser: Browser, reply: RequestReply,
                 store: Accounts.AccountsStore, info: InfoReply)
      returns (sent: Option<Request>)
      modifies this, store
      ensures currentMethod == Some(m) && !isLoading
      ensures sent.Some? <==> GetArgs(m, browser).Selection? && !GetArgs(m, browser).cancelled
      ensures sent.Some? ==> sent.value == Request(m, GetArgs(m, browser).args)
      ensures GetArgs(m, browser).Selection? && GetArgs(m, browser).cancelled ==>
                requestError == Some(Cancelled)
      ensures GetArgs(m, browser).InvalidArgs? ==>
                requestError == Some(ArgsParseError(GetArgs(m, browser).text))
      ensures sent.Some? && reply.Rejected? ==> requestError == Some(ProviderError(reply.reason))
      ensures requestError == None <==> sent.Some? && reply.Resolved?
      ensures sent.Some? && reply.Resolved? ==>
                requestOutput == Some(reply.result) &&
                store.State() == Accounts.Loaded(old(store.State()), info)
      ensures !(sent.Some? && reply.Resolved?) ==>
                requestOutput == old(requestOutput) && store.State() == old(store.State())
      ensures old(store.Valid()) ==> store.Valid()
    {
      sent := None;
      currentMethod := Some(m);
      requestError := None;
      isLoading := true;
      var selection := GetArgs(m, browser);
      match selection {
        case InvalidArgs(text) =>
          requestError := Some(ArgsParseError(text));
        case Selection(args, cancelled) =>
          if !cancelled {
            sent := Some(Request(m, args));
            match reply {
              case Resolved(result) =>
                requestOutput := Some(result);
                store.LoadAccountInfo(info);
              case Rejected(reason) =>
                requestError := Some(ProviderError(reason));
            }
          } else {
            requestError := Some(Cancelled);
          }
      }
      isLoading := false;
    }
  }
}
