/** The JavaScript value trees that the adapter passes around: tool arguments, request
    contexts and ledger replies. */
module Values {

  /** `Undef` is JavaScript's `undefined`, which an object may hold as the value of an own key.
      Numbers are integers only. Objects are maps, so key order is not represented. */
  datatype Json =
    | Undef
    | Null
    | Bool(b: bool)
    | Num(n: int)
    | Str(s: string)
    | Arr(items: seq<Json>)
    | Obj(fields: map<string, Json>)
}
