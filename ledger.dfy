/** The calls this adapter makes on the decision-ledger client. The client itself (network,
    retries, its own sanitiser) is not part of this model: each call is recorded as a value and
    its settled outcome is an input chosen by the caller. */
module Ledger {
  import opened Base
  import opened Values

  datatype AutomationMode = Propose | Execute | Validate

  /** The terminal classification of a decision, sent as "commit" or "abort". */
  datatype Outcome = Commit | Abort

  /** The options of `createDecision` and `open`; `metadata` is missing where the caller passes
      none. */
  datatype DecisionOptions = DecisionOptions(
    metadata: Option<Json>,
    actor: Option<string>,
    automationMode: Option<AutomationMode>)

  /** One call on the client, with the arguments it was given. A `Json` argument that the source
      may leave undefined holds `Undef` then. */
  datatype ClientCall =
    | CreateDecision(intent: string, options: DecisionOptions)
    | Open(action: string, options: DecisionOptions)
    | Note(decisionId: string, message: string, kind: Option<string>, data: Json)
    | Read(decisionId: string, product: string, purpose: string, query: Json)
    | Evaluate(decisionId: string, policy: string, inputs: Json)
    | RequestApproval(decisionId: string, approvalOptions: Json)
    | Write(decisionId: string, product: string, purpose: string, mutation: Json, idempotencyKey: Option<string>)
    | Trace(decisionId: string)
    | Receipt(decisionId: string)
    | Close(decisionId: string, outcome: Outcome, reason: Option<string>)
    | ProductsList(purposeFilter: Option<string>)
    | ProductGet(name: string)
    | Capabilities
  {
    /** Calls that open a decision. */
    predicate Opens() {
      CreateDecision? || Open?
    }
  }
}
