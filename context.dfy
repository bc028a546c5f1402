/** The request context of src/context.ts and the left fold `mergeContexts` that combines
    several of them. */
module Context {
  import opened Base
  import opened Values

  /** TraceMemVercelContext: three reserved fields, each of which may be missing, and every other
      own field in `rest` (requestId, route, userId, sessionId, tenantId and any other key).
      A reserved field set to `undefined` is modelled as missing, since the fold reads every
      reserved field through `|| []` or `|| {}`. A context that stands for an object keeps the
      three reserved keys out of `rest` (`WellFormed`). */
  datatype RequestContext = RequestContext(
    tags: Option<seq<string>>,
    externalRefs: Option<map<string, Json>>,
    metadata: Option<map<string, Json>>,
    rest: map<string, Json>)

  /** The names of the reserved fields. */
  const Reserved: set<string> := {"tags", "externalRefs", "metadata"}

  /** The reserved fields live in their own slots, never in `rest`. */
  predicate WellFormed(c: RequestContext) {
    forall k :: k in Reserved ==> k !in c.rest
  }

  /** The object literal `{}`, which is where the fold starts. */
  const Empty := RequestContext(None, None, None, map[])

  /** `tags || []` */
  function TagsOf(c: RequestContext): seq<string> {
    c.tags.GetOr([])
  }

  /** The three fields that are merged key by key. */
  datatype MapField = ExternalRefs | Metadata | Rest

  /** `externalRefs || {}`, `metadata || {}`, or the remaining own fields. */
  function MapOf(c: RequestContext, f: MapField): map<string, Json> {
    match f
    case ExternalRefs => c.externalRefs.GetOr(map[])
    case Metadata => c.metadata.GetOr(map[])
    case Rest => c.rest
  }

  /** The reducer: an undefined argument leaves the accumulator as it is; otherwise the remaining
      fields of the argument are spread over the accumulator's, its tags are appended, and its
      externalRefs and metadata are spread over the accumulator's (later keys win). */
  function Step(acc: RequestContext, ctx: Option<RequestContext>): RequestContext {
    match ctx
    case None => acc
    case Some(c) =>
      RequestContext(
        Some(TagsOf(acc) + TagsOf(c)),
        Some(MapOf(acc, ExternalRefs) + MapOf(c, ExternalRefs)),
        Some(MapOf(acc, Metadata) + MapOf(c, Metadata)),
        acc.rest + c.rest)
  }

  /** Some argument is defined. */
  predicate Defined(cs: seq<Option<RequestContext>>) {
    exists i :: 0 <= i < |cs| && cs[i].Some?
  }

  /** mergeContexts: a left fold of Step from `{}`. When some argument is defined the result has
      all three reserved fields; when none is, the result is `{}`. */
  function Merge(cs: seq<Option<RequestContext>>): (r: RequestContext)
    ensures Defined(cs) ==> r.tags.Some? && r.externalRefs.Some? && r.metadata.Some?
    ensures !Defined(cs) ==> r == Empty
    decreases |cs|
  {
    if cs == [] then Empty else Step(Merge(cs[..|cs| - 1]), cs[|cs| - 1])
  }

  /** The tags of a defined argument, or none for an undefined one. */
  function TagsIn(ctx: Option<RequestContext>): seq<string> {
    if ctx.Some? then TagsOf(ctx.value) else []
  }

  /** Reference definition: the tags of all arguments, first argument first. */
  function AllTags(cs: seq<Option<RequestContext>>): seq<string>
    decreases |cs|
  {
    if cs == [] then [] else TagsIn(cs[0]) + AllTags(cs[1..])
  }

  lemma {:induction false} AllTagsSnoc(cs: seq<Option<RequestContext>>, x: Option<RequestContext>)
    ensures AllTags(cs + [x]) == AllTags(cs) + TagsIn(x)
    decreases |cs|
  {
    if cs == [] {
      assert [x][1..] == [];
    } else {
      assert (cs + [x])[1..] == cs[1..] + [x];
      AllTagsSnoc(cs[1..], x);
    }
  }

  /** The merged tags are the concatenation of every defined argument's tags in argument order,
      a missing `tags` counting as empty. */
  lemma {:induction false} MergeTags(cs: seq<Option<RequestContext>>)
    ensures TagsOf(Merge(cs)) == AllTags(cs)
    decreases |cs|
  {
    if cs != [] {
      var init := cs[..|cs| - 1];
      MergeTags(init);
      AllTagsSnoc(init, cs[|cs| - 1]);
      assert init + [cs[|cs| - 1]] == cs;
    }
  }

  /** A shallow spread on a defined argument adds its keys over the accumulator's. */
  lemma StepMap(acc: RequestContext, c: RequestContext, f: MapField)
    ensures MapOf(Step(acc, Some(c)), f) == MapOf(acc, f) + MapOf(c, f)
  {
  }

  /** A key is in the merged externalRefs, metadata or remaining fields exactly when some
      defined argument has it there. */
  lemma {:induction false} MergeKeys(cs: seq<Option<RequestContext>>, f: MapField, k: string)
    ensures k in MapOf(Merge(cs), f) <==> exists i :: 0 <= i < |cs| && cs[i].Some? && k in MapOf(cs[i].value, f)
    decreases |cs|
  {
    if cs != [] {
      var n := |cs| - 1;
      var init := cs[..n];
      MergeKeys(init, f, k);
      if cs[n].Some? {
        StepMap(Merge(init), cs[n].value, f);
      }
      if k in MapOf(Merge(cs), f) {
        if k in MapOf(Merge(init), f) {
          var i :| 0 <= i < n && init[i].Some? && k in MapOf(init[i].value, f);
          assert cs[i] == init[i];
        } else {
          assert cs[n].Some? && k in MapOf(cs[n].value, f);
        }
      } else {
        forall i | 0 <= i < |cs| && cs[i].Some? ensures k !in MapOf(cs[i].value, f) {
          if i < n {
            assert cs[i] == init[i];
          }
        }
      }
    }
  }

  /** Later keys win: the merged value under `k` is the one of the last defined argument that
      has `k` in that field. For the remaining fields this includes an own field whose value is
      `undefined`, which overwrites an earlier value like any other. */
  lemma {:induction false} MergeLastWins(cs: seq<Option<RequestContext>>, f: MapField, k: string, i: nat)
    requires i < |cs| && cs[i].Some? && k in MapOf(cs[i].value, f)
    requires forall j :: i < j < |cs| && cs[j].Some? ==> k !in MapOf(cs[j].value, f)
    ensures k in MapOf(Merge(cs), f) && MapOf(Merge(cs), f)[k] == MapOf(cs[i].value, f)[k]
    decreases |cs|
  {
    var n := |cs| - 1;
    var init := cs[..n];
    StepMap(Merge(init), cs[i].value, f);
    if i < n {
      MergeLastWins(init, f, k, i);
      if cs[n].Some? {
        StepMap(Merge(init), cs[n].value, f);
      }
    }
  }

  /** Only the defined arguments, in order. */
  function Present(cs: seq<Option<RequestContext>>): (ds: seq<Option<RequestContext>>)
    decreases |cs|
  {
    if cs == [] then []
    else Present(cs[..|cs| - 1]) + (if cs[|cs| - 1].Some? then [cs[|cs| - 1]] else [])
  }

  /** Undefined arguments are skipped: dropping them all does not change the result. */
  lemma {:induction false} MergeSkipsUndefined(cs: seq<Option<RequestContext>>)
    ensures Merge(Present(cs)) == Merge(cs)
    decreases |cs|
  {
    if cs != [] {
      var n := |cs| - 1;
      MergeSkipsUndefined(cs[..n]);
      if cs[n].Some? {
        var ds := Present(cs[..n]) + [cs[n]];
        assert ds[..|ds| - 1] == Present(cs[..n]);
      } else {
        assert Present(cs) == Present(cs[..n]);
      }
    }
  }

  /** Two arguments are two steps from `{}`. */
  lemma MergePair(a: Option<RequestContext>, b: Option<RequestContext>)
    ensures Merge([a, b]) == Step(Step(Empty, a), b)
  {
    assert [a, b][..1] == [a];
    assert [a][..0] == [];
  }

  /** The given field of a defined argument, or nothing for an undefined one. */
  function MapIn(ctx: Option<RequestContext>, f: MapField): map<string, Json> {
    if ctx.Some? then MapOf(ctx.value, f) else map[]
  }

  /** What one step adds, for defined and undefined arguments alike. */
  lemma StepFields(acc: RequestContext, ctx: Option<RequestContext>)
    ensures TagsOf(Step(acc, ctx)) == TagsOf(acc) + TagsIn(ctx)
    ensures forall f :: MapOf(Step(acc, ctx), f) == MapOf(acc, f) + MapIn(ctx, f)
  {
    if ctx.None? {
      assert TagsOf(acc) + [] == TagsOf(acc);
      forall f ensures MapOf(acc, f) + map[] == MapOf(acc, f) {
        assert MapOf(acc, f) + map[] == MapOf(acc, f);
      }
    }
  }

  /** Two contexts with all three reserved fields present are equal when their fields are. */
  lemma SameFields(x: RequestContext, y: RequestContext)
    requires x.tags.Some? && x.externalRefs.Some? && x.metadata.Some?
    requires y.tags.Some? && y.externalRefs.Some? && y.metadata.Some?
    requires TagsOf(x) == TagsOf(y)
    requires MapOf(x, ExternalRefs) == MapOf(y, ExternalRefs)
    requires MapOf(x, Metadata) == MapOf(y, Metadata)
    requires MapOf(x, Rest) == MapOf(y, Rest)
    ensures x == y
  {
  }

  /** The fields of a two-argument merge. */
  lemma PairFields(x: Option<RequestContext>, y: Option<RequestContext>, f: MapField)
    ensures TagsOf(Merge([x, y])) == TagsIn(x) + TagsIn(y)
    ensures MapOf(Merge([x, y]), f) == MapIn(x, f) + MapIn(y, f)
  {
    MergePair(x, y);
    StepFields(Empty, x);
    StepFields(Step(Empty, x), y);
    assert [] + TagsIn(x) == TagsIn(x);
    var none: map<string, Json> := map[];
    assert none + MapIn(x, f) == MapIn(x, f);
  }

  lemma UnionAssociative(x: map<string, Json>, y: map<string, Json>, z: map<string, Json>)
    ensures (x + y) + z == x + (y + z)
  {
    var l, r := (x + y) + z, x + (y + z);
    assert l.Keys == r.Keys;
    forall k | k in l ensures l[k] == r[k] {
    }
  }

  /** One field of a regrouped three-argument merge. */
  lemma FieldRegrouped(a: Option<RequestContext>, b: Option<RequestContext>, c: Option<RequestContext>, f: MapField)
    ensures MapOf(Merge([Some(Merge([a, b])), c]), f) == MapOf(Merge([a, Some(Merge([b, c]))]), f)
  {
    PairFields(a, b, f);
    PairFields(b, c, f);
    PairFields(Some(Merge([a, b])), c, f);
    PairFields(a, Some(Merge([b, c])), f);
    UnionAssociative(MapIn(a, f), MapIn(b, f), MapIn(c, f));
  }

  /** The tags of a two-argument merge. */
  lemma PairTags(x: Option<RequestContext>, y: Option<RequestContext>)
    ensures TagsOf(Merge([x, y])) == TagsIn(x) + TagsIn(y)
  {
    MergePair(x, y);
    StepFields(Empty, x);
    StepFields(Step(Empty, x), y);
    assert [] + TagsIn(x) == TagsIn(x);
  }

  /** Both groupings of three arguments have a defined argument, so every reserved field is present. */
  lemma RegroupedDefined(a: Option<RequestContext>, b: Option<RequestContext>, c: Option<RequestContext>)
    ensures var l, r := Merge([Some(Merge([a, b])), c]), Merge([a, Some(Merge([b, c]))]);
      && l.tags.Some? && l.externalRefs.Some? && l.metadata.Some?
      && r.tags.Some? && r.externalRefs.Some? && r.metadata.Some?
  {
    var ab, bc := Merge([a, b]), Merge([b, c]);
    assert Defined([Some(ab), c]) by { assert [Some(ab), c][0].Some?; }
    assert Defined([a, Some(bc)]) by { assert [a, Some(bc)][1].Some?; }
  }

  /** Regrouping three arguments leaves the tags unchanged. */
  lemma TagsRegrouped(a: Option<RequestContext>, b: Option<RequestContext>, c: Option<RequestContext>)
    ensures TagsOf(Merge([Some(Merge([a, b])), c])) == TagsOf(Merge([a, Some(Merge([b, c]))]))
  {
    var ab, bc := Merge([a, b]), Merge([b, c]);
    PairTags(a, b);
    PairTags(b, c);
    PairTags(Some(ab), c);
    PairTags(a, Some(bc));
    assert (TagsIn(a) + TagsIn(b)) + TagsIn(c) == TagsIn(a) + (TagsIn(b) + TagsIn(c));
  }

  /** Merging is associative, for the reserved fields and for every other field alike: regrouping
      the arguments keeps their left-to-right order, which is all that last-write-wins needs. */
  lemma MergeAssociative(a: Option<RequestContext>, b: Option<RequestContext>, c: Option<RequestContext>)
    ensures Merge([Some(Merge([a, b])), c]) == Merge([a, Some(Merge([b, c]))])
  {
    var l, r := Merge([Some(Merge([a, b])), c]), Merge([a, Some(Merge([b, c]))]);
    RegroupedDefined(a, b, c);
    TagsRegrouped(a, b, c);
    FieldRegrouped(a, b, c, ExternalRefs);
    FieldRegrouped(a, b, c, Metadata);
    FieldRegrouped(a, b, c, Rest);
    SameFields(l, r);
  }

  /** tests/unit.test.ts, "merges contexts correctly". */
  lemma MergeExample()
    ensures
      var c1 := RequestContext(Some(["a"]), None, Some(map["key" := Num(1)]), map[]);
      var c2 := RequestContext(Some(["b"]), None, Some(map["foo" := Str("bar")]), map["userId" := Str("u1")]);
      var m := Merge([Some(c1), Some(c2)]);
      m.tags == Some(["a", "b"]) && m.metadata == Some(map["key" := Num(1), "foo" := Str("bar")])
      && m.rest == map["userId" := Str("u1")]
  {
    var c1 := RequestContext(Some(["a"]), None, Some(map["key" := Num(1)]), map[]);
    var c2 := RequestContext(Some(["b"]), None, Some(map["foo" := Str("bar")]), map["userId" := Str("u1")]);
    MergePair(Some(c1), Some(c2));
    assert [] + ["a"] + ["b"] == ["a", "b"];
    assert map[] + map["key" := Num(1)] + map["foo" := Str("bar")] == map["key" := Num(1), "foo" := Str("bar")];
  }

  /** tests/unit.test.ts, "handles undefined inputs": a leading undefined is skipped, and the
      result carries empty externalRefs and metadata. */
  lemma UndefinedExample()
    ensures
      var m := Merge([None, Some(RequestContext(Some(["a"]), None, None, map[]))]);
      m == RequestContext(Some(["a"]), Some(map[]), Some(map[]), map[])
  {
    MergePair(None, Some(RequestContext(Some(["a"]), None, None, map[])));
    assert [] + ["a"] == ["a"];
    var none: map<string, Json> := map[];
    assert none + none == none;
  }

  /** The context as the plain object it stands for: the remaining fields plus each reserved
      field that is present. A reserved key in `rest` never shows (it has no place in a
      well-formed context). */
  function AsJson(c: RequestContext): Json {
    var own := c.rest - Reserved;
    var withTags :=
      if c.tags.Some? then own["tags" := Arr(seq(|c.tags.value|, i requires 0 <= i < |c.tags.value| => Str(c.tags.value[i])))]
      else own;
    var withRefs := if c.externalRefs.Some? then withTags["externalRefs" := Obj(c.externalRefs.value)] else withTags;
    Obj(if c.metadata.Some? then withRefs["metadata" := Obj(c.metadata.value)] else withRefs)
  }

  /** Merging well-formed contexts gives a well-formed context: a reserved key is never copied
      into the remaining fields. */
  lemma MergeWellFormed(cs: seq<Option<RequestContext>>)
    requires forall i :: 0 <= i < |cs| && cs[i].Some? ==> WellFormed(cs[i].value)
    ensures WellFormed(Merge(cs))
  {
    forall k | k in Reserved ensures k !in Merge(cs).rest {
      MergeKeys(cs, Rest, k);
    }
  }
}
