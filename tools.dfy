/** The tool factory of src/tools.ts: twelve named tools over the ledger client, each of which
    resolves the request context through an optional provider, redacts it, and forwards one call
    to the client. */
module Tools {
  import opened Base
  import opened Values
  import opened Safety
  import opened Context
  import Ledger

  /** The twelve operations, by the keys of TraceMemTools. */
  datatype ToolKind =
    | TracememOpen | TracememNote | TracememRead | TracememEvaluate | TracememRequestApproval
    | TracememWrite | TracememTrace | TracememReceipt | TracememClose | TracememProductsList
    | TracememProductGet | TracememCapabilities

  /** The key of each operation, which is also its default tool name. */
  function DefaultName(k: ToolKind): string {
    match k
    case TracememOpen => "tracememOpen"
    case TracememNote => "tracememNote"
    case TracememRead => "tracememRead"
    case TracememEvaluate => "tracememEvaluate"
    case TracememRequestApproval => "tracememRequestApproval"
    case TracememWrite => "tracememWrite"
    case TracememTrace => "tracememTrace"
    case TracememReceipt => "tracememReceipt"
    case TracememClose => "tracememClose"
    case TracememProductsList => "tracememProductsList"
    case TracememProductGet => "tracememProductGet"
    case TracememCapabilities => "tracememCapabilities"
  }

  /** The order in which the factory registers the tools. */
  const Kinds: seq<ToolKind> := [
    TracememOpen, TracememNote, TracememRead, TracememEvaluate, TracememRequestApproval,
    TracememWrite, TracememTrace, TracememReceipt, TracememClose, TracememProductsList,
    TracememProductGet, TracememCapabilities]

  /** The position of a kind in the registration order. */
  function Position(k: ToolKind): (i: nat)
    ensures i < |Kinds| && Kinds[i] == k
  {
    match k
    case TracememOpen => 0
    case TracememNote => 1
    case TracememRead => 2
    case TracememEvaluate => 3
    case TracememRequestApproval => 4
    case TracememWrite => 5
    case TracememTrace => 6
    case TracememReceipt => 7
    case TracememClose => 8
    case TracememProductsList => 9
    case TracememProductGet => 10
    case TracememCapabilities => 11
  }

  datatype Defaults = Defaults(
    actor: Option<string>,
    automationMode: Option<Ledger.AutomationMode>,
    closeOutcomeOnError: Option<Ledger.Outcome>)

  /** CreateTraceMemToolsConfig without the client, which is not part of this model, and without
      the context provider, which each execution takes as an input. */
  datatype Config = Config(
    toolNames: map<ToolKind, string>,
    sanitize: Option<bool>,
    defaults: Defaults,
    exposeDecisionHandleTool: bool)

  /** `toolNames[k] || k`: an override is used when it is a non-empty string. */
  function ToolName(names: map<ToolKind, string>, k: ToolKind): (n: string)
    ensures n != ""
    ensures k in names && names[k] != "" ==> n == names[k]
    ensures !(k in names && names[k] != "") ==> n == DefaultName(k)
  {
    if k in names && names[k] != "" then names[k] else DefaultName(k)
  }

  /** Registering the kinds `ks` one after another, each under its tool name; a later
      registration under a name already taken replaces the earlier tool. */
  function RegisterAll(names: map<ToolKind, string>, ks: seq<ToolKind>): map<string, ToolKind>
    decreases |ks|
  {
    if ks == [] then map[]
    else RegisterAll(names, ks[..|ks| - 1])[ToolName(names, ks[|ks| - 1]) := ks[|ks| - 1]]
  }

  /** Every kind of `ks` has its name in the table. */
  lemma {:induction false} RegisterAllCovers(names: map<ToolKind, string>, ks: seq<ToolKind>)
    ensures forall i :: 0 <= i < |ks| ==> ToolName(names, ks[i]) in RegisterAll(names, ks)
    decreases |ks|
  {
    if ks != [] {
      var n := |ks| - 1;
      var init := ks[..n];
      RegisterAllCovers(names, init);
      assert RegisterAll(names, ks).Keys == RegisterAll(names, init).Keys + {ToolName(names, ks[n])};
      forall i | 0 <= i < n ensures ToolName(names, ks[i]) in RegisterAll(names, ks) {
        assert init[i] == ks[i];
      }
    }
  }

  /** Every entry is a kind of `ks` filed under its own name: nothing is registered that was not
      asked for. */
  lemma {:induction false} RegisterAllSound(names: map<ToolKind, string>, ks: seq<ToolKind>)
    ensures forall n :: n in RegisterAll(names, ks) ==>
      RegisterAll(names, ks)[n] in ks && ToolName(names, RegisterAll(names, ks)[n]) == n
    decreases |ks|
  {
    if ks != [] {
      var n := |ks| - 1;
      var init, k := ks[..n], ks[n];
      var t := RegisterAll(names, init);
      RegisterAllSound(names, init);
      assert RegisterAll(names, ks) == t[ToolName(names, k) := k];
      forall x | x in init ensures x in ks {
        var i :| 0 <= i < |init| && init[i] == x;
        assert ks[i] == x;
      }
    }
  }

  /** The table that the factory returns. */
  function Registry(names: map<ToolKind, string>): map<string, ToolKind> {
    RegisterAll(names, Kinds)
  }

  lemma RegisterNext(names: map<ToolKind, string>, i: nat)
    requires i < |Kinds|
    ensures RegisterAll(names, Kinds[..i + 1]) == RegisterAll(names, Kinds[..i])[ToolName(names, Kinds[i]) := Kinds[i]]
  {
    assert Kinds[..i + 1][..i] == Kinds[..i];
  }

  /** createTraceMemTools: fills a fresh table with the twelve tools, in source order. Each tool
      is identified here by its kind; what invoking it does is `Execute`. */
  method CreateTools(config: Config) returns (tools: map<string, ToolKind>)
    ensures tools == Registry(config.toolNames)
  {
    var toolNames := config.toolNames;
    tools := map[];
    assert Kinds[..0] == [];
    RegisterNext(toolNames, 0);
    var openName := ToolName(toolNames, TracememOpen);
    tools := tools[openName := TracememOpen];
    RegisterNext(toolNames, 1);
    var noteName := ToolName(toolNames, TracememNote);
    tools := tools[noteName := TracememNote];
    RegisterNext(toolNames, 2);
    var readName := ToolName(toolNames, TracememRead);
    tools := tools[readName := TracememRead];
    RegisterNext(toolNames, 3);
    var evalName := ToolName(toolNames, TracememEvaluate);
    tools := tools[evalName := TracememEvaluate];
    RegisterNext(toolNames, 4);
    var approveName := ToolName(toolNames, TracememRequestApproval);
    tools := tools[approveName := TracememRequestApproval];
    RegisterNext(toolNames, 5);
    var writeName := ToolName(toolNames, TracememWrite);
    tools := tools[writeName := TracememWrite];
    RegisterNext(toolNames, 6);
    var traceName := ToolName(toolNames, TracememTrace);
    tools := tools[traceName := TracememTrace];
    RegisterNext(toolNames, 7);
    var receiptName := ToolName(toolNames, TracememReceipt);
    tools := tools[receiptName := TracememReceipt];
    RegisterNext(toolNames, 8);
    var closeName := ToolName(toolNames, TracememClose);
    tools := tools[closeName := TracememClose];
    RegisterNext(toolNames, 9);
    var listName := ToolName(toolNames, TracememProductsList);
    tools := tools[listName := TracememProductsList];
    RegisterNext(toolNames, 10);
    var getName := ToolName(toolNames, TracememProductGet);
    tools := tools[getName := TracememProductGet];
    RegisterNext(toolNames, 11);
    var capName := ToolName(toolNames, TracememCapabilities);
    tools := tools[capName := TracememCapabilities];
    assert Kinds[..12] == Kinds;
  }

  /** A registration survives when no later kind is filed under the same name. */
  lemma {:induction false} RegisterLastWins(names: map<ToolKind, string>, ks: seq<ToolKind>, i: nat)
    requires i < |ks|
    requires forall j :: i < j < |ks| ==> ToolName(names, ks[j]) != ToolName(names, ks[i])
    ensures ToolName(names, ks[i]) in RegisterAll(names, ks) && RegisterAll(names, ks)[ToolName(names, ks[i])] == ks[i]
    decreases |ks|
  {
    var n := |ks| - 1;
    var init := ks[..n];
    if i < n {
      assert init[i] == ks[i];
      forall j | i < j < |init| ensures ToolName(names, init[j]) != ToolName(names, init[i]) {
        assert init[j] == ks[j];
      }
      RegisterLastWins(names, init, i);
    }
  }

  /** The default names are pairwise different. */
  lemma DefaultNamesDistinct(a: ToolKind, b: ToolKind)
    requires DefaultName(a) == DefaultName(b)
    ensures a == b
  {
  }

  /** When the tool names of the twelve kinds are pairwise different, every kind is registered
      under its own name and the table has exactly those twelve entries. */
  lemma RegistryDistinctNames(names: map<ToolKind, string>)
    requires forall a, b :: ToolName(names, a) == ToolName(names, b) ==> a == b
    ensures forall k :: ToolName(names, k) in Registry(names) && Registry(names)[ToolName(names, k)] == k
    ensures forall n :: n in Registry(names) <==> exists k :: ToolName(names, k) == n
  {
    forall k ensures ToolName(names, k) in Registry(names) && Registry(names)[ToolName(names, k)] == k {
      var i := Position(k);
      forall j | i < j < |Kinds| ensures ToolName(names, Kinds[j]) != ToolName(names, Kinds[i]) {
        assert Kinds[j] != Kinds[i] by { assert Position(Kinds[j]) == j; }
      }
      RegisterLastWins(names, Kinds, i);
    }
    RegisterAllSound(names, Kinds);
  }

  /** With no overrides (an absent or empty `toolNames`, or only empty strings in it), every
      operation is registered under its key and nothing else is registered. */
  lemma RegistryDefaults(names: map<ToolKind, string>)
    requires forall k :: k in names ==> names[k] == ""
    ensures forall k :: DefaultName(k) in Registry(names) && Registry(names)[DefaultName(k)] == k
    ensures forall n :: n in Registry(names) <==> exists k :: DefaultName(k) == n
  {
    forall a, b | ToolName(names, a) == ToolName(names, b) ensures a == b {
      DefaultNamesDistinct(a, b);
    }
    RegistryDistinctNames(names);
    forall k ensures DefaultName(k) in Registry(names) && Registry(names)[DefaultName(k)] == k {
      assert ToolName(names, k) == DefaultName(k);
    }
  }

  /** Overriding one operation with a fresh name keeps all tool names pairwise different. */
  lemma OverrideKeepsNamesDistinct(k0: ToolKind, name: string)
    requires name != "" && forall k :: DefaultName(k) != name
    ensures forall a, b :: ToolName(map[k0 := name], a) == ToolName(map[k0 := name], b) ==> a == b
    ensures ToolName(map[k0 := name], k0) == name
    ensures forall k :: k != k0 ==> ToolName(map[k0 := name], k) == DefaultName(k)
  {
    var names := map[k0 := name];
    forall a, b | ToolName(names, a) == ToolName(names, b) ensures a == b {
      if a != k0 && b != k0 {
        DefaultNamesDistinct(a, b);
      }
    }
  }

  /** Overriding the name of one operation with a fresh non-empty name files that operation
      under the new name only and leaves every other operation under its default name. */
  lemma RegistryOverrideOne(k0: ToolKind, name: string)
    requires name != "" && forall k :: DefaultName(k) != name
    ensures var r := Registry(map[k0 := name]);
      && name in r && r[name] == k0
      && DefaultName(k0) !in r
      && forall k :: k != k0 ==> DefaultName(k) in r && r[DefaultName(k)] == k
  {
    var names := map[k0 := name];
    OverrideKeepsNamesDistinct(k0, name);
    RegistryDistinctNames(names);
    if DefaultName(k0) in Registry(names) {
      var k :| ToolName(names, k) == DefaultName(k0);
      if k != k0 {
        DefaultNamesDistinct(k, k0);
      }
    }
  }

  /** Renaming tracememOpen to "startTask" and leaving every other name alone. */
  lemma RenameOpenExample()
    ensures var r := Registry(map[TracememOpen := "startTask"]);
      && "startTask" in r && "tracememOpen" !in r
      && "tracememNote" in r && r["tracememNote"] == TracememNote
  {
    RegistryOverrideOne(TracememOpen, "startTask");
    assert DefaultName(TracememNote) == "tracememNote";
  }

  /** The arguments each tool accepts, after parameter validation. A `Json` argument that may be
      left out holds `Undef` then. */
  datatype ToolArgs =
    | OpenArgs(action: string, intent: Option<string>)
    | NoteArgs(decisionId: string, message: string, noteKind: Option<string>, data: Option<map<string, Json>>)
    | ReadArgs(decisionId: string, product: string, purpose: string, query: Json)
    | EvaluateArgs(decisionId: string, policy: string, inputs: map<string, Json>)
    | RequestApprovalArgs(decisionId: string, message: string)
    | WriteArgs(decisionId: string, product: string, purpose: string, mutation: Json, idempotencyKey: Option<string>)
    | TraceArgs(decisionId: string)
    | ReceiptArgs(decisionId: string)
    | CloseArgs(decisionId: string, outcome: Ledger.Outcome, reason: Option<string>)
    | ProductsListArgs(purposeFilter: Option<string>)
    | ProductGetArgs(name: string)
    | CapabilitiesArgs
  {
    function Kind(): ToolKind {
      match this
      case OpenArgs(_, _) => TracememOpen
      case NoteArgs(_, _, _, _) => TracememNote
      case ReadArgs(_, _, _, _) => TracememRead
      case EvaluateArgs(_, _, _) => TracememEvaluate
      case RequestApprovalArgs(_, _) => TracememRequestApproval
      case WriteArgs(_, _, _, _, _) => TracememWrite
      case TraceArgs(_) => TracememTrace
      case ReceiptArgs(_) => TracememReceipt
      case CloseArgs(_, _, _) => TracememClose
      case ProductsListArgs(_) => TracememProductsList
      case ProductGetArgs(_) => TracememProductGet
      case CapabilitiesArgs => TracememCapabilities
    }
  }

  /** What the context provider is asked: the tool key and the tool's arguments. */
  datatype ProviderQuery = ProviderQuery(tool: string, args: ToolArgs)

  /** One execution of a tool: the provider query it made, if any, the client calls it issued,
      and how the tool's promise settles. */
  datatype Run = Run(asked: Option<ProviderQuery>, calls: seq<Ledger.ClientCall>, result: Result<Json>)

  /** `config.sanitize ?? true` */
  function ShouldSanitize(config: Config): bool {
    config.sanitize.GetOr(true)
  }

  /** getContext: no provider gives `{}`; a provider that throws or rejects gives `{}` too; a
      provider that succeeds gives its context. */
  function GetContext(provider: Option<Result<RequestContext>>): RequestContext {
    match provider
    case None => Empty
    case Some(Err(_)) => Empty
    case Some(Ok(c)) => c
  }

  /** The metadata that wrapExecution hands to a tool body: the context, redacted when sanitising. */
  function ContextMetadata(config: Config, provider: Option<Result<RequestContext>>): Json {
    var ctx := AsJson(GetContext(provider));
    if ShouldSanitize(config) then Redact(ctx) else ctx
  }

  /** The tools whose execute goes through wrapExecution and so consults the provider. */
  predicate Consults(k: ToolKind) {
    !(k in {TracememTrace, TracememReceipt, TracememProductsList, TracememProductGet, TracememCapabilities})
  }

  /** The tools that return the client's reply as it is. */
  predicate Verbatim(k: ToolKind) {
    k in {TracememRead, TracememEvaluate, TracememTrace, TracememReceipt, TracememProductsList,
          TracememProductGet, TracememCapabilities}
  }

  /** The key under which a note carries the context. */
  const ContextKey := "_vercel_context"

  /** The note's data: `{...sanitizedData, _vercel_context: metadata}`, where spreading an
      undefined `data` adds nothing. */
  function NoteData(sanitize: bool, data: Option<map<string, Json>>, metadata: Json): Json {
    var spread := match data
      case None => map[]
      case Some(m) => if sanitize then Redact(Obj(m)).fields else m;
    Obj(spread[ContextKey := metadata])
  }

  /** The one client call each tool body makes; `metadata` is what wrapExecution passed to it. */
  function CallFor(config: Config, args: ToolArgs, metadata: Json): Ledger.ClientCall {
    match args
    case OpenArgs(action, intent) =>
      var options := Ledger.DecisionOptions(Some(metadata), config.defaults.actor, config.defaults.automationMode);
      if Truthy(intent) then Ledger.CreateDecision(intent.value, options) else Ledger.Open(action, options)
    case NoteArgs(decisionId, message, noteKind, data) =>
      Ledger.Note(decisionId, message, noteKind, NoteData(ShouldSanitize(config), data, metadata))
    case ReadArgs(decisionId, product, purpose, query) => Ledger.Read(decisionId, product, purpose, query)
    case EvaluateArgs(decisionId, policy, inputs) => Ledger.Evaluate(decisionId, policy, Obj(inputs))
    case RequestApprovalArgs(decisionId, message) =>
      Ledger.RequestApproval(decisionId, Obj(map["description" := Str(message)]))
    case WriteArgs(decisionId, product, purpose, mutation, idempotencyKey) =>
      Ledger.Write(decisionId, product, purpose, mutation, idempotencyKey)
    case TraceArgs(decisionId) => Ledger.Trace(decisionId)
    case ReceiptArgs(decisionId) => Ledger.Receipt(decisionId)
    case CloseArgs(decisionId, outcome, reason) => Ledger.Close(decisionId, outcome, reason)
    case ProductsListArgs(purposeFilter) => Ledger.ProductsList(purposeFilter)
    case ProductGetArgs(name) => Ledger.ProductGet(name)
    case CapabilitiesArgs => Ledger.Capabilities
  }

  /** `handle.decisionId` on a handle that is neither null nor undefined: reading a missing
      property gives undefined. */
  function DecisionIdOf(handle: Json): Json {
    if handle.Obj? && "decisionId" in handle.fields then handle.fields["decisionId"] else Undef
  }

  /** Reading a property of null or undefined throws. */
  predicate Nullish(v: Json) {
    v.Null? || v.Undef?
  }

  function NullishRead(v: Json): Failure {
    TypeError("TypeError: Cannot read properties of " + (if v.Null? then "null" else "undefined") + " (reading 'decisionId')")
  }

  const Success := Obj(map["success" := Bool(true)])
  const Requested := Obj(map["status" := Str("requested")])

  /** What the tool's promise settles to, given how the client call settled. */
  function ResultFor(args: ToolArgs, reply: Result<Json>): Result<Json> {
    match reply
    case Err(e) => Err(e)
    case Ok(v) =>
      match args
      case OpenArgs(_, _) => if Nullish(v) then Err(NullishRead(v)) else Ok(Obj(map["decisionId" := DecisionIdOf(v)]))
      case NoteArgs(_, _, _, _) => Ok(Success)
      case RequestApprovalArgs(_, _) => Ok(Requested)
      case WriteArgs(_, _, _, _, _) => Ok(Success)
      case CloseArgs(_, _, _) => Ok(Success)
      case _ => Ok(v)
  }

  /** A tool's execute: one client call, preceded by a provider query for the tools that go
      through wrapExecution when a provider is configured. The query always names the tool's key,
      whatever name the tool is registered under; a client failure is the tool's failure; the
      reading tools return the client's reply unchanged. */
  function Execute(config: Config, provider: Option<Result<RequestContext>>, args: ToolArgs, reply: Result<Json>): (run: Run)
    ensures |run.calls| == 1
    ensures run.asked.Some? <==> provider.Some? && Consults(args.Kind())
    ensures run.asked.Some? ==> run.asked.value == ProviderQuery(DefaultName(args.Kind()), args)
    ensures reply.Err? ==> run.result == reply
    ensures Verbatim(args.Kind()) ==> run.result == reply
    ensures !Verbatim(args.Kind()) && reply.Ok? && !(args.OpenArgs? && Nullish(reply.value)) ==>
      run.result.Ok? && run.result.value.Obj? && |run.result.value.fields| == 1
    ensures args.OpenArgs? && reply.Ok? && Nullish(reply.value) ==> run.result.Err? && run.result.error.TypeError?
    ensures args.ReadArgs? ==> run.calls[0] == Ledger.Read(args.decisionId, args.product, args.purpose, args.query)
    ensures args.EvaluateArgs? ==> run.calls[0] == Ledger.Evaluate(args.decisionId, args.policy, Obj(args.inputs))
    ensures args.WriteArgs? ==>
      run.calls[0] == Ledger.Write(args.decisionId, args.product, args.purpose, args.mutation, args.idempotencyKey)
  {
    if Consults(args.Kind()) then
      var asked := if provider.Some? then Some(ProviderQuery(DefaultName(args.Kind()), args)) else None;
      Run(asked, [CallFor(config, args, ContextMetadata(config, provider))], ResultFor(args, reply))
    else
      Run(None, [CallFor(config, args, Undef)], ResultFor(args, reply))
  }

  /** With no provider, or one that throws or rejects, the tool proceeds with `{}` as its
      metadata, whether or not it sanitises. */
  lemma ContextFallback(config: Config, provider: Option<Result<RequestContext>>)
    requires provider.None? || provider.value.Err?
    ensures ContextMetadata(config, provider) == Obj(map[])
  {
    assert AsJson(Empty) == Obj(map[]);
    assert Redact(Obj(map[])).fields == map[];
  }

  /** Sanitising is on unless `sanitize` is false; then the metadata is the redacted context and
      is scrubbed at every depth. With `sanitize: false` it is the context as the provider gave it. */
  lemma SanitizeSetting(config: Config, provider: Option<Result<RequestContext>>)
    ensures config.sanitize != Some(false) ==>
      ContextMetadata(config, provider) == Redact(AsJson(GetContext(provider))) && Scrubbed(ContextMetadata(config, provider))
    ensures config.sanitize == Some(false) ==> ContextMetadata(config, provider) == AsJson(GetContext(provider))
  {
    RedactScrubs(AsJson(GetContext(provider)));
  }

  /** The open tool creates a decision from a non-empty intent and otherwise opens one for the
      action as given (there is no fallback action here), in both cases with the metadata and the
      configured actor and automation mode; it answers with the handle's decisionId alone, or
      fails with a TypeError when the handle is null or undefined. */
  lemma OpenTool(config: Config, provider: Option<Result<RequestContext>>, action: string, intent: Option<string>, reply: Result<Json>)
    ensures var run := Execute(config, provider, OpenArgs(action, intent), reply);
      var options := Ledger.DecisionOptions(Some(ContextMetadata(config, provider)), config.defaults.actor, config.defaults.automationMode);
      && run.calls[0] == (if Truthy(intent) then Ledger.CreateDecision(intent.value, options) else Ledger.Open(action, options))
      && (reply.Ok? && !Nullish(reply.value) ==>
            && run.result.Ok? && run.result.value.Obj? && run.result.value.fields.Keys == {"decisionId"}
            && run.result.value.fields["decisionId"] == DecisionIdOf(reply.value))
      && (reply.Ok? && Nullish(reply.value) ==> run.result == Err(NullishRead(reply.value)))
  {
  }

  /** The note's data holds the caller's keys and the context key, the context under the context
      key, and the caller's other values unchanged when not sanitising. */
  lemma NoteDataShape(sanitize: bool, data: Option<map<string, Json>>, metadata: Json)
    ensures var d := NoteData(sanitize, data, metadata);
      && d.Obj?
      && d.fields.Keys == (if data.Some? then data.value.Keys else {}) + {ContextKey}
      && d.fields[ContextKey] == metadata
      && (data.None? ==> d == Obj(map[ContextKey := metadata]))
      && (!sanitize && data.Some? ==> forall k :: k in data.value && k != ContextKey ==> d.fields[k] == data.value[k])
      && (sanitize && data.Some? ==> forall k :: k in data.value && k != ContextKey ==>
            d.fields[k] == (if Sensitive(k) then Str(Sentinel) else Redact(data.value[k])))
  {
    var d := NoteData(sanitize, data, metadata);
    if data.None? {
      assert d.fields == map[ContextKey := metadata];
    }
  }

  /** When sanitising, the note's data is scrubbed as long as the context is. */
  lemma NoteDataScrubbed(data: Option<map<string, Json>>, metadata: Json)
    requires Scrubbed(metadata)
    ensures Scrubbed(NoteData(true, data, metadata))
  {
    ContextKeyIsPlain();
    if data.Some? {
      RedactScrubs(Obj(data.value));
    }
    var d := NoteData(true, data, metadata);
    forall k | k in d.fields
      ensures if Sensitive(k) then d.fields[k] == Str(Sentinel) else Scrubbed(d.fields[k])
    {
    }
  }

  /** The note tool sends the caller's data with the context under `_vercel_context`, which
      replaces any caller value under that key; with no data it sends the context alone. When
      sanitising, nothing under a secret-looking key reaches the client, at any depth; when not,
      the caller's other keys go through unchanged. */
  lemma NoteTool(config: Config, provider: Option<Result<RequestContext>>, decisionId: string, message: string,
                 noteKind: Option<string>, data: Option<map<string, Json>>, reply: Result<Json>)
    ensures var run := Execute(config, provider, NoteArgs(decisionId, message, noteKind, data), reply);
      var sent := run.calls[0];
      && sent == Ledger.Note(decisionId, message, noteKind, sent.data)
      && sent.data.Obj?
      && sent.data.fields.Keys == (if data.Some? then data.value.Keys else {}) + {ContextKey}
      && sent.data.fields[ContextKey] == ContextMetadata(config, provider)
      && (data.None? ==> sent.data == Obj(map[ContextKey := ContextMetadata(config, provider)]))
      && (ShouldSanitize(config) ==> Scrubbed(sent.data))
      && (!ShouldSanitize(config) && data.Some? ==>
            forall k :: k in data.value && k != ContextKey ==> sent.data.fields[k] == data.value[k])
      && (ShouldSanitize(config) && data.Some? ==>
            forall k :: k in data.value && k != ContextKey ==>
              sent.data.fields[k] == (if Sensitive(k) then Str(Sentinel) else Redact(data.value[k])))
      && (reply.Ok? ==> run.result == Ok(Success))
  {
    var metadata := ContextMetadata(config, provider);
    NoteDataShape(ShouldSanitize(config), data, metadata);
    if ShouldSanitize(config) {
      SanitizeSetting(config, provider);
      NoteDataScrubbed(data, metadata);
    }
  }

  /** Read, evaluate, requestApproval, write and close consult the provider but make no use of
      what it returns: their client call and their result are the same for every provider. */
  lemma ContextUnused(config: Config, p1: Option<Result<RequestContext>>, p2: Option<Result<RequestContext>>,
                      args: ToolArgs, reply: Result<Json>)
    requires args.ReadArgs? || args.EvaluateArgs? || args.RequestApprovalArgs? || args.WriteArgs? || args.CloseArgs?
    ensures Execute(config, p1, args, reply).calls == Execute(config, p2, args, reply).calls
    ensures Execute(config, p1, args, reply).result == Execute(config, p2, args, reply).result
  {
  }

  /** Trace, receipt, productsList, productGet and capabilities never consult the provider and
      forward their arguments as they are. */
  lemma DirectTools(config: Config, provider: Option<Result<RequestContext>>, args: ToolArgs, reply: Result<Json>)
    requires !Consults(args.Kind())
    ensures var run := Execute(config, provider, args, reply);
      && run.asked.None? && run.result == reply
      && run.calls[0] == match args
        case TraceArgs(id) => Ledger.Trace(id)
        case ReceiptArgs(id) => Ledger.Receipt(id)
        case ProductsListArgs(purpose) => Ledger.ProductsList(purpose)
        case ProductGetArgs(name) => Ledger.ProductGet(name)
        case _ => Ledger.Capabilities
  {
  }

  /** Close forwards outcome and reason unchanged; close and write acknowledge with
      `{success: true}`, requestApproval with `{status: 'requested'}`, once the client call
      succeeds. requestApproval passes the message on as the `description` option. */
  lemma AcknowledgingTools(config: Config, provider: Option<Result<RequestContext>>, args: ToolArgs, v: Json)
    requires args.CloseArgs? || args.WriteArgs? || args.RequestApprovalArgs?
    ensures var run := Execute(config, provider, args, Ok(v));
      && (args.CloseArgs? ==> run.calls[0] == Ledger.Close(args.decisionId, args.outcome, args.reason) && run.result == Ok(Success))
      && (args.WriteArgs? ==>
            && run.calls[0] == Ledger.Write(args.decisionId, args.product, args.purpose, args.mutation, args.idempotencyKey)
            && run.result == Ok(Success))
      && (args.RequestApprovalArgs? ==>
            && run.calls[0] == Ledger.RequestApproval(args.decisionId, Obj(map["description" := Str(args.message)]))
            && run.result == Ok(Requested))
  {
  }

  /** The approval message reaches the ledger as the request's description, and different
      messages make different requests. */
  lemma ApprovalCarriesMessage(config: Config, provider: Option<Result<RequestContext>>, decisionId: string,
                               m1: string, m2: string, reply: Result<Json>)
    ensures var sent := Execute(config, provider, RequestApprovalArgs(decisionId, m1), reply).calls[0];
      && sent.RequestApproval? && sent.decisionId == decisionId
      && sent.approvalOptions.Obj? && sent.approvalOptions.fields.Keys == {"description"}
      && sent.approvalOptions.fields["description"] == Str(m1)
    ensures m1 != m2 ==>
      Execute(config, provider, RequestApprovalArgs(decisionId, m1), reply).calls
      != Execute(config, provider, RequestApprovalArgs(decisionId, m2), reply).calls
  {
    var s1 := Execute(config, provider, RequestApprovalArgs(decisionId, m1), reply).calls[0];
    var s2 := Execute(config, provider, RequestApprovalArgs(decisionId, m2), reply).calls[0];
    if m1 != m2 {
      assert s1.approvalOptions.fields["description"] != s2.approvalOptions.fields["description"];
    }
  }
}
