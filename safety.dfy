/** The redaction safety net of src/safety.ts: a recursive walk that replaces the value of every
    key that looks like it names a secret with a fixed sentinel string. */
module Safety {
  import opened Values

  /** The alternatives of the case-insensitive pattern, in lower case. */
  const SensitiveTerms: seq<string> :=
    ["token", "secret", "password", "api_key", "apikey", "auth", "credential"]

  /** The string that replaces a redacted value. */
  const Sentinel: string := "[REDACTED]"

  /** ASCII lower-casing of one character. Without the `u` flag a JavaScript regular expression
      never folds a non-ASCII character onto an ASCII one, so for these all-ASCII terms this is
      exactly the `i` flag's matching. */
  function LowerChar(c: char): (d: char)
    ensures 'A' <= c <= 'Z' ==> d != c && 'a' <= d <= 'z'
    ensures !('A' <= c <= 'Z') ==> d == c
  {
    if 'A' <= c <= 'Z' then (c as int + 32) as char else c
  }

  function Lower(s: string): (t: string)
    ensures |t| == |s|
    ensures forall i :: 0 <= i < |s| ==> t[i] == LowerChar(s[i])
  {
    seq(|s|, i requires 0 <= i < |s| => LowerChar(s[i]))
  }

  /** `t` occurs in `s` at position `i`. */
  predicate OccursAt(s: string, t: string, i: nat) {
    i + |t| <= |s| && s[i..i + |t|] == t
  }

  predicate Contains(s: string, t: string) {
    exists i: nat | i <= |s| :: OccursAt(s, t, i)
  }

  /** The test of the sensitive-term pattern against a key: some term occurs in it, ignoring
      ASCII case. */
  predicate Sensitive(key: string) {
    exists t :: t in SensitiveTerms && Contains(Lower(key), t)
  }

  /** redactObviousSecrets: a value that is neither an array nor an object comes back as it is,
      an array maps element by element, and an object keeps its key set while every key that
      matches the pattern gets the sentinel, whatever its value, and every other key gets the
      redaction of its value. */
  function Redact(j: Json): (r: Json)
    ensures !j.Arr? && !j.Obj? ==> r == j
    ensures j.Arr? ==> r.Arr? && |r.items| == |j.items|
    ensures j.Arr? ==> forall i :: 0 <= i < |j.items| ==> r.items[i] == Redact(j.items[i])
    ensures j.Obj? ==> r.Obj? && r.fields.Keys == j.fields.Keys
    ensures j.Obj? ==> forall k :: k in j.fields && Sensitive(k) ==> r.fields[k] == Str(Sentinel)
    ensures j.Obj? ==> forall k :: k in j.fields && !Sensitive(k) ==> r.fields[k] == Redact(j.fields[k])
    decreases j
  {
    match j
    case Arr(items) => Arr(seq(|items|, i requires 0 <= i < |items| => Redact(items[i])))
    case Obj(fields) => Obj(map k | k in fields :: if Sensitive(k) then Str(Sentinel) else Redact(fields[k]))
    case _ => j
  }

  /** No key anywhere in the tree matches the pattern. */
  predicate NoSensitiveKeys(j: Json)
    decreases j
  {
    match j
    case Arr(items) => forall i :: 0 <= i < |items| ==> NoSensitiveKeys(items[i])
    case Obj(fields) => forall k :: k in fields ==> !Sensitive(k) && NoSensitiveKeys(fields[k])
    case _ => true
  }

  /** Every key anywhere in the tree that matches the pattern holds the sentinel: nothing under
      a secret-looking key can leave the adapter. */
  predicate Scrubbed(j: Json)
    decreases j
  {
    match j
    case Arr(items) => forall i :: 0 <= i < |items| ==> Scrubbed(items[i])
    case Obj(fields) =>
      forall k :: k in fields ==> if Sensitive(k) then fields[k] == Str(Sentinel) else Scrubbed(fields[k])
    case _ => true
  }

  /** `r` has the skeleton of `j`: equal scalars, arrays of equal length, objects with equal key
      sets, compared position by position except below a key that matches the pattern, where
      anything may stand. */
  predicate SameSkeleton(j: Json, r: Json)
    decreases j
  {
    match j
    case Arr(items) =>
      r.Arr? && |r.items| == |items| && forall i :: 0 <= i < |items| ==> SameSkeleton(items[i], r.items[i])
    case Obj(fields) =>
      r.Obj? && r.fields.Keys == fields.Keys &&
      forall k :: k in fields && !Sensitive(k) ==> SameSkeleton(fields[k], r.fields[k])
    case _ => r == j
  }

  /** Redaction keeps the skeleton of its input at every depth. */
  lemma {:induction false} RedactKeepsSkeleton(j: Json)
    ensures SameSkeleton(j, Redact(j))
    decreases j
  {
    match j
    case Arr(items) =>
      forall i | 0 <= i < |items| ensures SameSkeleton(items[i], Redact(j).items[i]) {
        RedactKeepsSkeleton(items[i]);
      }
    case Obj(fields) =>
      forall k | k in fields && !Sensitive(k) ensures SameSkeleton(fields[k], Redact(j).fields[k]) {
        RedactKeepsSkeleton(fields[k]);
      }
    case _ =>
  }

  /** The output of redaction is scrubbed at every depth. */
  lemma {:induction false} RedactScrubs(j: Json)
    ensures Scrubbed(Redact(j))
    decreases j
  {
    match j
    case Arr(items) =>
      forall i | 0 <= i < |items| ensures Scrubbed(Redact(j).items[i]) {
        RedactScrubs(items[i]);
      }
    case Obj(fields) =>
      forall k | k in fields && !Sensitive(k) ensures Scrubbed(Redact(j).fields[k]) {
        RedactScrubs(fields[k]);
      }
    case _ =>
  }

  /** A scrubbed tree is a fixed point of redaction. */
  lemma {:induction false} RedactFixesScrubbed(j: Json)
    requires Scrubbed(j)
    ensures Redact(j) == j
    decreases j
  {
    match j
    case Arr(items) =>
      forall i | 0 <= i < |items| ensures Redact(j).items[i] == items[i] {
        RedactFixesScrubbed(items[i]);
      }
    case Obj(fields) =>
      forall k | k in fields ensures Redact(j).fields[k] == fields[k] {
        if !Sensitive(k) {
          RedactFixesScrubbed(fields[k]);
        }
      }
    case _ =>
  }

  /** A second pass changes nothing: the sentinel is a string, which redaction leaves alone. */
  lemma RedactIdempotent(j: Json)
    ensures Redact(Redact(j)) == Redact(j)
  {
    RedactScrubs(j);
    RedactFixesScrubbed(Redact(j));
  }

  /** A tree without secret-looking keys at any depth is scrubbed. */
  lemma {:induction false} CleanIsScrubbed(j: Json)
    requires NoSensitiveKeys(j)
    ensures Scrubbed(j)
    decreases j
  {
    match j
    case Arr(items) =>
      forall i | 0 <= i < |items| ensures Scrubbed(items[i]) {
        CleanIsScrubbed(items[i]);
      }
    case Obj(fields) =>
      forall k | k in fields ensures !Sensitive(k) && Scrubbed(fields[k]) {
        CleanIsScrubbed(fields[k]);
      }
    case _ =>
  }

  /** A tree without secret-looking keys at any depth comes back equal to the input. */
  lemma RedactLeavesCleanAlone(j: Json)
    requires NoSensitiveKeys(j)
    ensures Redact(j) == j
  {
    CleanIsScrubbed(j);
    RedactFixesScrubbed(j);
  }

  /** The key test ignores case: `mySecret`, `apiKey` and `PASSWORD` all match. */
  lemma SensitiveIgnoresCase(key: string)
    ensures Sensitive(key) <==> Sensitive(Lower(key))
  {
    assert Lower(Lower(key)) == Lower(key);
  }

  /** A match starts with the term's first two characters. */
  lemma OccursAtHead(s: string, t: string, i: nat)
    requires OccursAt(s, t, i) && |t| > 1
    ensures s[i] == t[0] && s[i + 1] == t[1]
  {
    assert s[i..i + |t|][0] == s[i] && s[i..i + |t|][1] == s[i + 1];
  }

  /** A key already in lower case matches no term when no term's first two characters occur
      at a position where the term would fit. */
  lemma NotSensitiveWhenNoTermFits(key: string)
    requires Lower(key) == key
    requires forall t, i: nat :: t in SensitiveTerms && i + |t| <= |key| ==> key[i] != t[0] || key[i + 1] != t[1]
    ensures !Sensitive(key)
  {
    forall t, i: nat | t in SensitiveTerms && i <= |key| ensures !OccursAt(key, t, i) {
      if OccursAt(key, t, i) {
        OccursAtHead(key, t, i);
      }
    }
  }

  /** The key under which a note carries the request context. */
  lemma ContextKeyIsPlain()
    ensures !Sensitive("_vercel_context")
  {
    assert Lower("_vercel_context") == "_vercel_context";
    NotSensitiveWhenNoTermFits("_vercel_context");
  }

  /** The term with index `n` occurs in the lower-cased key at position `i`. */
  lemma MatchAt(key: string, n: nat, i: nat)
    requires n < |SensitiveTerms| && OccursAt(Lower(key), SensitiveTerms[n], i)
    ensures Sensitive(key)
  {
    assert Contains(Lower(key), SensitiveTerms[n]);
  }

  /** Keys of tests/unit.test.ts that match. */
  lemma TokenIsSensitive()
    ensures Sensitive("token")
  {
    assert Lower("token") == "token";
    MatchAt("token", 0, 0);
  }

  lemma MySecretIsSensitive()
    ensures Sensitive("mySecret")
  {
    assert Lower("mySecret") == "mysecret" && "mysecret"[2..8] == "secret";
    MatchAt("mySecret", 1, 2);
  }

  lemma PasswordIsSensitive()
    ensures Sensitive("password")
  {
    assert Lower("password") == "password";
    MatchAt("password", 2, 0);
  }

  lemma ApiKeyIsSensitive()
    ensures Sensitive("apiKey")
  {
    assert Lower("apiKey") == "apikey";
    MatchAt("apiKey", 4, 0);
  }

  /** The test is coarse: an innocent key that contains a term is redacted too. */
  lemma AuthorIsSensitive()
    ensures Sensitive("author")
  {
    assert Lower("author") == "author" && "author"[0..4] == "auth";
    MatchAt("author", 5, 0);
  }

  /** Keys of the same tests that do not match. */
  lemma PlainExamples()
    ensures !Sensitive("safe") && !Sensitive("name") && !Sensitive("age")
    ensures !Sensitive("config") && !Sensitive("list")
  {
    assert Lower("safe") == "safe";
    NotSensitiveWhenNoTermFits("safe");
    assert Lower("name") == "name";
    NotSensitiveWhenNoTermFits("name");
    assert Lower("age") == "age";
    NotSensitiveWhenNoTermFits("age");
    assert Lower("config") == "config";
    NotSensitiveWhenNoTermFits("config");
    assert Lower("list") == "list";
    NotSensitiveWhenNoTermFits("list");
  }

  /** A three-key object with the outer keys secret-looking and the middle one plain keeps the
      middle value and gets the sentinel under the others. */
  lemma RedactThreeKeys(k1: string, k2: string, k3: string, v1: Json, v2: Json, v3: Json)
    requires Sensitive(k1) && !Sensitive(k2) && Sensitive(k3)
    requires v2.Str?
    ensures Redact(Obj(map[k1 := v1, k2 := v2, k3 := v3])) == Obj(map[k1 := Str(Sentinel), k2 := v2, k3 := Str(Sentinel)])
  {
    var r := Redact(Obj(map[k1 := v1, k2 := v2, k3 := v3]));
    assert r.fields == map[k1 := Str(Sentinel), k2 := v2, k3 := Str(Sentinel)];
  }

  /** tests/unit.test.ts, "redacts obvious secrets in flat object". */
  lemma FlatObjectExample()
    ensures Redact(Obj(map["token" := Str("123"), "safe" := Str("value"), "mySecret" := Str("abc")]))
         == Obj(map["token" := Str(Sentinel), "safe" := Str("value"), "mySecret" := Str(Sentinel)])
  {
    TokenIsSensitive();
    MySecretIsSensitive();
    assert !Sensitive("safe") by {
      assert Lower("safe") == "safe";
      NotSensitiveWhenNoTermFits("safe");
    }
    RedactThreeKeys("token", "safe", "mySecret", Str("123"), Str("value"), Str("abc"));
  }

  /** An object holding a single secret-looking key comes back with only the sentinel. */
  lemma RedactSingleSecret(key: string, v: Json)
    requires Sensitive(key)
    ensures Redact(Obj(map[key := v])) == Obj(map[key := Str(Sentinel)])
  {
    assert Redact(Obj(map[key := v])).fields == map[key := Str(Sentinel)];
  }

  /** tests/unit.test.ts, "redacts nested secrets": a secret inside a nested object and one
      inside an object inside an array. */
  lemma NestedExample()
    ensures Redact(Obj(map["config" := Obj(map["apiKey" := Str("xyz")]),
                           "list" := Arr([Obj(map["password" := Str("123")])])]))
         == Obj(map["config" := Obj(map["apiKey" := Str(Sentinel)]),
                    "list" := Arr([Obj(map["password" := Str(Sentinel)])])])
  {
    ApiKeyIsSensitive();
    PasswordIsSensitive();
    var config := Obj(map["apiKey" := Str("xyz")]);
    var entry := Obj(map["password" := Str("123")]);
    RedactSingleSecret("apiKey", Str("xyz"));
    RedactSingleSecret("password", Str("123"));
    var list := Arr([entry]);
    assert Redact(list).items == [Redact(entry)];
    assert !Sensitive("config") && !Sensitive("list") by { PlainExamples(); }
    var j := Obj(map["config" := config, "list" := list]);
    assert Redact(j).fields == map["config" := Redact(config), "list" := Redact(list)];
  }

  /** tests/unit.test.ts, "leaves non-sensitive data alone". */
  lemma CleanExample()
    ensures Redact(Obj(map["name" := Str("test"), "age" := Num(10)])) == Obj(map["name" := Str("test"), "age" := Num(10)])
  {
    PlainExamples();
    RedactLeavesCleanAlone(Obj(map["name" := Str("test"), "age" := Num(10)]));
  }
}
