# tracemem-vercel-ai adapter, modelled in Dafny

The adapter connects AI-SDK tool calling and Next.js route handlers to the TraceMem decision
ledger. It has four parts, and each has a module here:

- **Safety** (`safety.dfy`): the redactor. It replaces the value of every object key that looks
  like a secret with `"[REDACTED]"`, at every depth, and keeps everything else.
- **Context** (`context.dfy`): `mergeContexts`. It folds a list of request contexts, some possibly
  undefined, into one. Tags are concatenated. `externalRefs` and `metadata` are unioned with
  last-write-wins, and so are all other fields.
- **Tools** (`tools.dfy`): `createTraceMemTools`. It builds a registry of twelve tools under
  names the caller may override. When a tool runs, it may ask a context provider for the request
  context, falls back to `{}` when the provider fails, redacts the context unless sanitising is
  switched off, and issues exactly one ledger call.
- **Helpers** (`helpers.dfy`): `withTraceMemDecision`. It wraps a route handler so that each
  request opens a decision, runs the handler, and makes one best-effort close: `commit` when the
  handler returns, and the configured outcome with the error's text when it throws. The handler's
  own outcome is passed on, unless `String(error)` itself throws. Then no close is issued, and
  what the conversion threw is thrown instead of the handler's error.

Three supporting modules hold the shared types:

- `base.dfy` (Base): `Option`, `Result`, and `Failure` for a thrown JavaScript value.
- `json.dfy` (Values): a JSON-like value tree. It has an `Undef` constructor, because the source
  treats an explicit `undefined` as a value that spreading copies.
- `ledger.dfy` (Ledger): the vocabulary of ledger-client calls. The client itself is not part of
  this model. A run records the calls it issues, and how each call settles is an input.

How JavaScript semantics are modelled:

- The regular expression `/token|secret|password|api_key|apikey|auth|credential/i` becomes
  "the ASCII-lower-cased key contains one of the seven terms".
  - This is exact for a non-unicode JavaScript regex: its case folding never maps a non-ASCII
    character onto an ASCII one.
  - The test is coarse on purpose, so a key like `author` is redacted.
- Truthiness of an optional string (`x || y`) becomes `Truthy`, which means defined and
  non-empty.
- `??` becomes `Option.GetOr`. So does `x || fallback` wherever a present `x` is never falsy:
  an array, an object, or an outcome name.
- An object spread becomes map union, where the right operand wins.
- `String(error)` is `Failure.Text()`: `Ok` with the string, or `Err` with whatever the value's own
  `toString` or `Symbol.toPrimitive` throws (a TypeError for an object that has neither).

Behaviours of the code that the model keeps as they are:

- `mergeContexts` starts its fold from `{}`, not from empty tags and maps.
  - With no defined argument the result is `{}`, with no `tags` at all.
  - With at least one defined argument, all three reserved fields are present.
- The merge is associative for scalar fields as well as for tags and maps, because last-write-wins
  union is associative. `Context.MergeAssociative` proves this for the whole merge.
- Redaction does not keep the nesting below a secret-looking key. A nested object or array under
  such a key is replaced by the sentinel string as a whole.
- The tool `tracememOpen` opens with `args.action` as given. Only the route wrapper falls back to
  `"default"`.
- `defaults.closeOutcomeOnError` and `exposeDecisionHandleTool` are accepted by the tool factory
  and have no effect.
- The read, evaluate, requestApproval, write and close tools ask the provider for a context but
  make no use of it.

## Model

| member | source | states |
|---|---|---|
| Safety.Lower | src/safety.ts:1 | The case-insensitive flag: the result has the same length, and each character is lowered on its own. |
| Safety.Redact | src/safety.ts:10-26 | Scalars come back unchanged. An array gives an array of the same length whose elements are redacted one by one. An object keeps exactly its keys; a key matching a term gets the sentinel, and any other key gets its value redacted. |
| Safety.RedactKeepsSkeleton | src/safety.ts:13-25 | Redaction keeps the shape of the tree: equal scalars, equal array lengths and equal key sets at every depth. Only below a secret-looking key may the shape differ. |
| Safety.RedactScrubs | src/safety.ts:17-24 | After redaction, every secret-looking key at every depth holds the sentinel. |
| Safety.RedactFixesScrubbed | src/safety.ts:11-25 | A tree that is already scrubbed comes back unchanged. |
| Safety.RedactIdempotent | src/safety.ts:10-26 | Redacting twice gives the same as redacting once. |
| Safety.RedactLeavesCleanAlone | src/safety.ts:10-26 | A tree with no secret-looking key at any depth comes back equal to the input. |
| Safety.SensitiveIgnoresCase | src/safety.ts:1 | A key matches exactly when its lower-cased form matches. |
| Safety.ContextKeyIsPlain | src/tools.ts:115 | The key `_vercel_context` that notes use for the context is not itself redacted. |
| Safety.TokenIsSensitive | tests/unit.test.ts:5-11 | `token` matches. |
| Safety.MySecretIsSensitive | tests/unit.test.ts:5-11 | `mySecret` matches, ignoring case. |
| Safety.PasswordIsSensitive | tests/unit.test.ts:14-19 | `password` matches. |
| Safety.ApiKeyIsSensitive | tests/unit.test.ts:14-19 | `apiKey` matches the term `apikey`. |
| Safety.AuthorIsSensitive | src/safety.ts:1 | An innocent key that contains a term (`author` contains `auth`) matches too. |
| Safety.PlainExamples | tests/unit.test.ts:5-25 | `safe`, `name`, `age`, `config` and `list` do not match. |
| Safety.RedactSingleSecret | src/safety.ts:19-20 | An object with a single secret-looking key comes back holding just the sentinel under it. |
| Safety.FlatObjectExample | tests/unit.test.ts:5-12 | The flat-object unit test holds. |
| Safety.NestedExample | tests/unit.test.ts:14-20 | The nested unit test holds, through an object and through an array. |
| Safety.CleanExample | tests/unit.test.ts:22-25 | The non-sensitive unit test holds: the input comes back unchanged. |
| Context.Merge | src/context.ts:19-34 | With no defined argument the result is `{}`. Otherwise `tags`, `externalRefs` and `metadata` are all present. |
| Context.MergeTags | src/context.ts:29 | The merged tags are the concatenation, in argument order, of every defined argument's tags, with missing tags counted as none. |
| Context.MergeKeys | src/context.ts:27-31 | A key is in a merged map field exactly when some defined argument has it in that field. |
| Context.MergeLastWins | src/context.ts:27-31 | A merged map field holds, for each key, the value given by the last defined argument that has the key. |
| Context.MergeSkipsUndefined | src/context.ts:23 | Undefined arguments are skipped: merging equals merging the defined arguments alone. |
| Context.MergeWellFormed | src/context.ts:24-28 | The destructuring keeps the reserved keys out of the spread of remaining fields, so merging contexts without stray reserved keys gives one without them. |
| Context.FieldRegrouped | src/context.ts:27-31 | Regrouping three arguments leaves each map field unchanged. |
| Context.TagsRegrouped | src/context.ts:29 | Regrouping three arguments leaves the tags unchanged. |
| Context.MergeAssociative | src/context.ts:19-34 | Merging is associative: merging (a, b) and then c equals merging a with the merge of (b, c). |
| Context.MergeExample | tests/unit.test.ts:29-37 | The unit test merging two contexts holds: the tags are `["a","b"]`, the metadata has both keys, and `userId` is copied over. |
| Context.UndefinedExample | tests/unit.test.ts:39-42 | An undefined first argument is skipped, and the tags are `["a"]`. |
| Tools.ToolName | src/tools.ts:67 | A tool's name is never empty. It is the caller's override when that is a non-empty string, and otherwise the operation's key. |
| Tools.RegisterAllCovers | src/tools.ts:64-295 | Every registered operation has its name in the table. |
| Tools.RegisterAllSound | src/tools.ts:64-295 | Every table entry is a registered operation filed under its own name. |
| Tools.RegisterLastWins | src/tools.ts:64-295 | A registration survives when no later operation is filed under the same name. |
| Tools.CreateTools | src/tools.ts:38-301 | The factory fills a fresh table with the twelve tools, in source order, giving exactly the registry of the configured names. |
| Tools.DefaultNamesDistinct | src/tools.ts:67-288 | No two operations share a default name. |
| Tools.RegistryDistinctNames | src/tools.ts:64-301 | When the names are pairwise different, every operation is reachable under its own name, and the table holds nothing else. |
| Tools.RegistryDefaults | tests/integration.test.ts:21-26 | With no overrides, or only empty ones, every operation is registered under its key and nothing else is registered. |
| Tools.OverrideKeepsNamesDistinct | src/tools.ts:40 | Overriding one name with a fresh one keeps all names pairwise different. |
| Tools.RegistryOverrideOne | src/tools.ts:67 | A fresh override files that operation under the new name only and leaves every other operation under its key. |
| Tools.RenameOpenExample | src/tools.ts:67 | Renaming `tracememOpen` to `startTask` removes the old name and keeps the other tools. |
| Tools.Execute | src/tools.ts:43-295 | Every tool issues exactly one client call. It asks the provider only for the wrapped tools, and only when a provider is configured, and the query names the tool's key. A client failure is the tool's failure. The reading tools return the reply unchanged, and the others a one-field acknowledgement. A null or undefined open handle gives a TypeError. Read, evaluate and write forward every argument in their one call. |
| Tools.ContextFallback | src/tools.ts:43-51 | With no provider, or one that throws or rejects, the tool proceeds with `{}` as its metadata. |
| Tools.SanitizeSetting | src/tools.ts:41-55 | Sanitising is on unless `sanitize` is `false`. When on, the metadata is the redacted context and is scrubbed at every depth. When off, it is the context as given. |
| Tools.OpenTool | src/tools.ts:74-90 | A non-empty intent creates a decision; otherwise the tool opens one for the action as given. Both pass the metadata, actor and automation mode. The result is exactly `{decisionId}`, or a TypeError on a null or undefined handle. |
| Tools.NoteDataShape | src/tools.ts:105-115 | The note's data has the caller's keys plus `_vercel_context`, and the context sits under that key. Without data it is the context alone. When not sanitising, the caller's other values are unchanged. When sanitising, each of them is replaced by the sentinel under a secret-looking key, and by its redaction otherwise. |
| Tools.NoteDataScrubbed | src/tools.ts:105-115 | When sanitising, the note's data is scrubbed, provided the context is. |
| Tools.NoteTool | src/tools.ts:103-124 | The note call carries the decision, message and kind. Its data has the shape above. When sanitising, each caller value is the sentinel or its redaction, and the whole data is scrubbed at every depth. The tool answers `{success: true}`. |
| Tools.ContextUnused | src/tools.ts:137-260 | For read, evaluate, requestApproval, write and close, the call and the result are the same whatever the provider returns. |
| Tools.DirectTools | src/tools.ts:226-294 | Trace, receipt, productsList, productGet and capabilities never ask the provider. They forward their arguments and return the reply unchanged. |
| Tools.AcknowledgingTools | src/tools.ts:181-260 | Close forwards the outcome and reason; write forwards the decision, product, purpose, mutation and idempotency key; requestApproval sends `{description: message}`. They acknowledge with `{success: true}` or `{status: 'requested'}`. |
| Tools.ApprovalCarriesMessage | src/tools.ts:183-189 | The approval message reaches the ledger as the only option, `description`, and different messages make different requests. |
| Helpers.OpeningCall | src/helpers.ts:35-45 | The wrapper opens with createDecision for a non-empty intent, and otherwise with open for a non-empty action, or `"default"`. No metadata is sent, and the actor and mode are passed on. |
| Helpers.WithDecision | src/helpers.ts:24-89 | A client that fails to construct issues no call. An open failure is rethrown, the handler is not run and no close follows. Once opened, the handler gets the context with `decisionId` added. Exactly one close follows: `commit` on success, or the configured outcome (default `abort`) with the error's text on failure. A failing close is swallowed, and the handler's outcome is passed on unchanged. The exception is a thrown value whose string conversion throws: then no close is issued, and what the conversion threw replaces the handler's error. |

## Left out

- Client construction (`src/client.ts`, credentials, base URL) is not part of this model.
  - In `Helpers.WithDecision` a construction failure is the `clientError` input.
  - The tool factory is modelled without its client.
- The ledger SDK, the network, and the SDK's own sanitiser are left out. Each call's outcome is an
  input.
- Tool parameter schemas (zod) and descriptions are left out. Tool arguments are taken as already
  validated.
- The `NEXT_RUNTIME` hint passed to the provider is left out, because it reads the environment.
  Console logging is left out as well.
- Asynchrony and interleaving are left out. Each tool run and each wrapped request is one
  sequential step.
- JSON numbers are integers, and object key order is not modelled. Objects are maps, and
  non-plain objects such as dates and class instances are not modelled.
- Tools.GetContext: a provider that succeeds is assumed to return a context object. A provider
  resolving to `undefined` or `null` is not modelled.
- Safety.Redact: an own key `__proto__`, as produced by `JSON.parse`, is not kept in the result. The
  source's assignment to it goes through the prototype setter, and the model treats it as an ordinary key.
- Helpers.WithDecision: the outcome of the open call is the handle's `decisionId`. A null or
  undefined handle, or a null response (whose `body` read would throw), is not modelled.
- Helpers.WithDecision: the source makes the same close call whether or not the response has a
  body, so the streaming distinction is not modelled.
- `exposeDecisionHandleTool` is kept as a configuration field. It has no effect in the source and
  none here.
- The example applications and the integration test's live ledger calls are not part of this
  model.
