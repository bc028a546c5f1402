/** The route-handler wrapper of src/helpers.ts: open a decision, run the handler, then make one
    best-effort attempt to close the decision, with `commit` when the handler returned and with the
    configured outcome when it threw. */
module Helpers {
  import opened Base
  import opened Values
  import Ledger

  /** WithTraceMemDecisionOptions, without the client and the credential, which are not part of
      this model. */
  datatype Options = Options(
    action: Option<string>,
    intent: Option<string>,
    actor: Option<string>,
    automationMode: Option<Ledger.AutomationMode>,
    closeOutcomeOnError: Option<Ledger.Outcome>)

  /** The arguments the wrapped handler was called with. */
  datatype Invocation<Req> = Invocation(request: Req, context: map<string, Json>, decisionId: string)

  /** The number of close calls in a call log. */
  function CloseCount(log: seq<Ledger.ClientCall>): nat
    decreases |log|
  {
    if log == [] then 0 else (if log[0].Close? then 1 else 0) + CloseCount(log[1..])
  }

  /** The call that opens the decision: createDecision for a non-empty intent, otherwise open for
      the action, or for "default" when the action is missing or empty. */
  function OpeningCall(options: Options): (call: Ledger.ClientCall)
    ensures call.Opens() && call.options.metadata.None?
    ensures call.options.actor == options.actor && call.options.automationMode == options.automationMode
    ensures call.CreateDecision? <==> Truthy(options.intent)
    ensures call.CreateDecision? ==> call.intent == options.intent.value
    ensures call.Open? ==> call.action == (if Truthy(options.action) then options.action.value else "default")
    ensures call.Open? ==> call.action != ""
  {
    var decisionOptions := Ledger.DecisionOptions(None, options.actor, options.automationMode);
    if Truthy(options.intent) then Ledger.CreateDecision(options.intent.value, decisionOptions)
    else Ledger.Open(if Truthy(options.action) then options.action.value else "default", decisionOptions)
  }

  /** One request through withTraceMemDecision. `clientError` is the error that constructing the
      client threw, if it did; `openResult`, `handlerResult` and `closeResult` are how the open
      call, the handler and the close call settle. The results are the ledger calls issued, the
      handler invocation, the close failure that was swallowed, and how the wrapped handler settles.
      The handler's outcome is passed on unchanged (the same response, or the same error rethrown),
      whatever becomes of the close; an open failure is rethrown before the handler runs and no
      close follows it; once opened, exactly one close is issued, unless the handler threw a value
      whose string conversion throws: then what the conversion throws escapes before the close
      is issued, and replaces the handler's error. */
  method WithDecision<Req, Resp>(
    options: Options, clientError: Option<Failure>, request: Req, context: Option<map<string, Json>>,
    openResult: Result<string>, handlerResult: Result<Resp>, closeResult: Result<Json>)
    returns (log: seq<Ledger.ClientCall>, invoked: Option<Invocation<Req>>, swallowed: Option<Failure>, response: Result<Resp>)
    ensures clientError.Some? ==> log == [] && invoked.None? && swallowed.None? && response == Err(clientError.value)
    ensures clientError.None? ==> 1 <= |log| <= 2 && log[0] == OpeningCall(options)
    ensures clientError.None? && openResult.Err? ==>
      |log| == 1 && invoked.None? && swallowed.None? && response == Err(openResult.error)
    ensures clientError.None? && openResult.Ok? ==>
      invoked == Some(Invocation(request, context.GetOr(map[])["decisionId" := Str(openResult.value)], openResult.value))
    ensures clientError.None? && openResult.Ok? && handlerResult.Ok? ==>
      && log == [OpeningCall(options), Ledger.Close(openResult.value, Ledger.Commit, None)]
      && swallowed == (if closeResult.Err? then Some(closeResult.error) else None)
      && response == handlerResult
    ensures clientError.None? && openResult.Ok? && handlerResult.Err? && handlerResult.error.Text().Ok? ==>
      && log == [OpeningCall(options), Ledger.Close(openResult.value, options.closeOutcomeOnError.GetOr(Ledger.Abort),
                                                    Some(handlerResult.error.Text().value))]
      && swallowed == (if closeResult.Err? then Some(closeResult.error) else None)
      && response == handlerResult
    ensures clientError.None? && openResult.Ok? && handlerResult.Err? && handlerResult.error.Text().Err? ==>
      |log| == 1 && swallowed.None? && response == Err(handlerResult.error.Text().error)
    ensures CloseCount(log) ==
      (if clientError.None? && openResult.Ok? && !(handlerResult.Err? && handlerResult.error.Text().Err?) then 1 else 0)
  {
    log, invoked, swallowed := [], None, None;
    if clientError.Some? {
      response := Err(clientError.value);
      return;
    }
    var closeOutcomeOnError := options.closeOutcomeOnError.GetOr(Ledger.Abort);

    // 1. Open the decision; a failure is rethrown as it is.
    var decisionOptions := Ledger.DecisionOptions(None, options.actor, options.automationMode);
    if Truthy(options.intent) {
      log := log + [Ledger.CreateDecision(options.intent.value, decisionOptions)];
    } else {
      var action := if Truthy(options.action) then options.action.value else "default";
      log := log + [Ledger.Open(action, decisionOptions)];
    }
    assert log[1..] == [];
    if openResult.Err? {
      response := Err(openResult.error);
      return;
    }
    var decisionId := openResult.value;

    // 2. Run the handler with decisionId injected into its context and passed on its own.
    invoked := Some(Invocation(request, context.GetOr(map[])["decisionId" := Str(decisionId)], decisionId));
    if handlerResult.Ok? {
      // 3. Close with commit; a failing close is swallowed.
      log := log + [Ledger.Close(decisionId, Ledger.Commit, None)];
      swallowed := if closeResult.Err? then Some(closeResult.error) else None;
      response := handlerResult;
    } else {
      // 4. Close with the configured outcome and the error's text, then rethrow the error.
      var reason := handlerResult.error.Text();
      if reason.Err? {
        response := Err(reason.error);
        return;
      }
      log := log + [Ledger.Close(decisionId, closeOutcomeOnError, Some(reason.value))];
      swallowed := if closeResult.Err? then Some(closeResult.error) else None;
      response := Err(handlerResult.error);
    }
    assert log[1..][1..] == [];
    assert CloseCount(log[1..]) == 1;
  }
}
