/**
 * Null-safe lookup of a dotted key path in a JSON-like value, in its two
 * generations: `getValue` in source/utils/index.js (the current one, never
 * `undefined`) and `getValue` in utils/index.js (the older one, which can
 * answer `undefined`). Both split the path on "." and fold over the segments.
 */
module KeyPath {
  import opened Wrappers
  import opened JsonValues

  /** `keyPath.split(".")`: always at least one segment, possibly empty ones. */
  function Split(s: string): (segs: seq<string>)
    ensures |segs| >= 1
    decreases |s|
  {
    if |s| == 0 then [""]
    else if s[0] == '.' then [""] + Split(s[1..])
    else
      var rest := Split(s[1..]);
      [[s[0]] + rest[0]] + rest[1..]
  }

  /** `segs.join(".")`, the inverse of Split. */
  function JoinDots(segs: seq<string>): string
    requires |segs| >= 1
  {
    if |segs| == 1 then segs[0] else segs[0] + "." + JoinDots(segs[1..])
  }

  /** No segment produced by Split contains a dot. */
  lemma {:induction false} SplitSegmentsHaveNoDots(s: string)
    ensures forall k :: 0 <= k < |Split(s)| ==> '.' !in Split(s)[k]
    decreases |s|
  {
    if |s| > 0 {
      SplitSegmentsHaveNoDots(s[1..]);
    }
  }

  /** Joining the segments with "." gives the path back. */
  lemma {:induction false} JoinSplit(s: string)
    ensures JoinDots(Split(s)) == s
    decreases |s|
  {
    if |s| == 0 {
    } else if s[0] == '.' {
      JoinSplit(s[1..]);
      assert s == "." + s[1..];
    } else {
      var rest := Split(s[1..]);
      JoinSplit(s[1..]);
      if |rest| == 1 {
        assert s == [s[0]] + rest[0];
      } else {
        assert JoinDots(rest) == rest[0] + "." + JoinDots(rest[1..]);
        assert ([[s[0]] + rest[0]] + rest[1..])[1..] == rest[1..];
        assert s == [s[0]] + s[1..];
      }
    }
  }

  /** A path without dots is a single segment. */
  lemma {:induction false} SplitWithoutDots(s: string)
    requires '.' !in s
    ensures Split(s) == [s]
    decreases |s|
  {
    if |s| > 0 {
      assert s[0] in s;
      assert forall c :: c in s[1..] ==> c in s;
      SplitWithoutDots(s[1..]);
      assert s == [s[0]] + s[1..];
    }
  }

  /** Splitting `p + "." + q` splits `p` and `q` separately. */
  lemma {:induction false} SplitAppend(p: string, q: string)
    ensures Split(p + "." + q) == Split(p) + Split(q)
    decreases |p|
  {
    var s := p + "." + q;
    if |p| == 0 {
      assert s[1..] == q;
    } else {
      assert s[1..] == p[1..] + "." + q;
      SplitAppend(p[1..], q);
    }
  }

  // ---------------------------------------------------------------------
  // Current version: `prev ? (prev[curr] ?? null) : null`
  // ---------------------------------------------------------------------

  /** One step of the fold: index a truthy value, turning `undefined` into `null`. */
  function Step(prev: Json, key: string): Json {
    if Truthy(prev) then Property(prev, key).GetOr(Null) else Null
  }

  function Fold(prev: Json, keys: seq<string>): Json
    decreases |keys|
  {
    if |keys| == 0 then prev else Fold(Step(prev, keys[0]), keys[1..])
  }

  /** `getValue(root, keyPath)` of source/utils/index.js. */
  function GetValue(root: Json, keyPath: string): Json {
    Fold(root, Split(keyPath))
  }

  lemma {:induction false} FoldAppend(v: Json, a: seq<string>, b: seq<string>)
    ensures Fold(v, a + b) == Fold(Fold(v, a), b)
    decreases |a|
  {
    if |a| > 0 {
      assert (a + b)[1..] == a[1..] + b;
      FoldAppend(Step(v, a[0]), a[1..], b);
    } else {
      assert a + b == b;
    }
  }

  lemma {:induction false} FoldFalsy(v: Json, keys: seq<string>)
    requires !Truthy(v) && |keys| >= 1
    ensures Fold(v, keys) == Null
    decreases |keys|
  {
    if |keys| > 1 {
      FoldFalsy(Null, keys[1..]);
    }
  }

  /** A path without dots takes a single step of the fold. */
  lemma GetValueOneStep(v: Json, key: string)
    requires '.' !in key
    ensures GetValue(v, key) == Step(v, key)
  {
    SplitWithoutDots(key);
    assert Fold(v, [key]) == Fold(Step(v, key), [key][1..]);
  }

  /** A one-segment path on an object returns the stored value, falsy ones included, and `null` for a missing key. */
  lemma GetValueOneKey(fields: seq<(string, Json)>, key: string)
    requires '.' !in key
    ensures GetValue(Obj(fields), key) == Lookup(fields, key).GetOr(Null)
  {
    GetValueOneStep(Obj(fields), key);
  }

  /** Looking up `p.q` is looking up `q` in the value found at `p`, for every root. */
  lemma GetValueComposes(root: Json, p: string, q: string)
    ensures GetValue(root, p + "." + q) == GetValue(GetValue(root, p), q)
  {
    SplitAppend(p, q);
    FoldAppend(root, Split(p), Split(q));
  }

  /** A falsy root (`null`, `0`, `""`, `false`) yields `null` for any path. */
  lemma GetValueFalsyRoot(root: Json, keyPath: string)
    requires !Truthy(root)
    ensures GetValue(root, keyPath) == Null
  {
    FoldFalsy(root, Split(keyPath));
  }

  /** Once the value found at `p` is falsy, every longer path yields `null`. */
  lemma GetValueAfterFalsy(root: Json, p: string, q: string)
    requires !Truthy(GetValue(root, p))
    ensures GetValue(root, p + "." + q) == Null
  {
    GetValueComposes(root, p, q);
    GetValueFalsyRoot(GetValue(root, p), q);
  }

  /** A key missing at any depth yields `null`, never `undefined`. */
  lemma GetValueMissingKey(root: Json, p: string, key: string)
    requires '.' !in key
    requires Property(GetValue(root, p), key).None?
    ensures GetValue(root, p + "." + key) == Null
  {
    GetValueComposes(root, p, key);
    GetValueOneStep(GetValue(root, p), key);
  }

  /** The root `{ foo: 0, bar: { baz: [1, 2] } }` used to exercise getValue. */
  function SampleObject(): Json {
    Obj([("foo", Num(0)), ("bar", Obj([("baz", Arr([Num(1), Num(2)]))]))])
  }

  lemma GetValueSampleTopLevel()
    ensures GetValue(SampleObject(), "foo") == Num(0)
    ensures GetValue(SampleObject(), "hi") == Null
  {
    GetValueOneKey(SampleObject().fields, "foo");
    GetValueOneKey(SampleObject().fields, "hi");
  }

  lemma GetValueSampleNested()
    ensures GetValue(SampleObject(), "bar.baz") == Arr([Num(1), Num(2)])
    ensures GetValue(SampleObject(), "bar.hi") == Null
  {
    var bar := Obj([("baz", Arr([Num(1), Num(2)]))]);
    GetValueOneKey(SampleObject().fields, "bar");
    GetValueOneKey(bar.fields, "baz");
    GetValueOneKey(bar.fields, "hi");
    GetValueComposes(SampleObject(), "bar", "baz");
    GetValueComposes(SampleObject(), "bar", "hi");
    assert "bar" + "." + "baz" == "bar.baz";
    assert "bar" + "." + "hi" == "bar.hi";
  }

  lemma GetValueSampleBelowFalsy()
    ensures GetValue(SampleObject(), "foo.hi") == Null
  {
    GetValueSampleTopLevel();
    GetValueAfterFalsy(SampleObject(), "foo", "hi");
    assert "foo" + "." + "hi" == "foo.hi";
  }

  // ---------------------------------------------------------------------
  // Older version: `prev ? prev[curr] : null`, with `undefined` as None
  // ---------------------------------------------------------------------

  function LegacyStep(prev: Option<Json>, key: string): Option<Json> {
    if TruthyOrUndefined(prev) then Property(prev.value, key) else Some(Null)
  }

  function LegacyFold(prev: Option<Json>, keys: seq<string>): Option<Json>
    decreases |keys|
  {
    if |keys| == 0 then prev else LegacyFold(LegacyStep(prev, keys[0]), keys[1..])
  }

  /** `getValue(root, value)` of utils/index.js; the root may itself be `undefined`. */
  function LegacyGetValue(root: Option<Json>, path: string): Option<Json> {
    LegacyFold(root, Split(path))
  }

  lemma {:induction false} LegacyFoldAppend(v: Option<Json>, a: seq<string>, b: seq<string>)
    ensures LegacyFold(v, a + b) == LegacyFold(LegacyFold(v, a), b)
    decreases |a|
  {
    if |a| > 0 {
      assert (a + b)[1..] == a[1..] + b;
      LegacyFoldAppend(LegacyStep(v, a[0]), a[1..], b);
    } else {
      assert a + b == b;
    }
  }

  lemma {:induction false} LegacyFoldFalsy(v: Option<Json>, keys: seq<string>)
    requires !TruthyOrUndefined(v) && |keys| >= 1
    ensures LegacyFold(v, keys) == Some(Null)
    decreases |keys|
  {
    if |keys| > 1 {
      LegacyFoldFalsy(Some(Null), keys[1..]);
    }
  }

  /** The same fold-composition law as the current version. */
  lemma LegacyGetValueComposes(root: Option<Json>, p: string, q: string)
    ensures LegacyGetValue(root, p + "." + q) == LegacyGetValue(LegacyGetValue(root, p), q)
  {
    SplitAppend(p, q);
    LegacyFoldAppend(root, Split(p), Split(q));
  }

  /** Once an intermediate value is falsy or `undefined`, the result is `null`. */
  lemma LegacyGetValueAfterFalsy(root: Option<Json>, p: string, q: string)
    requires !TruthyOrUndefined(LegacyGetValue(root, p))
    ensures LegacyGetValue(root, p + "." + q) == Some(Null)
  {
    LegacyGetValueComposes(root, p, q);
    LegacyFoldFalsy(LegacyGetValue(root, p), Split(q));
  }

  /**
   * A one-segment path indexes the root directly: a present value is returned
   * unchanged, falsy ones included, and a missing key yields `undefined`.
   */
  lemma LegacyGetValueOneKey(fields: seq<(string, Json)>, key: string)
    requires '.' !in key
    ensures LegacyGetValue(Some(Obj(fields)), key) == Lookup(fields, key)
    ensures (forall i :: 0 <= i < |fields| ==> fields[i].0 != key) ==> LegacyGetValue(Some(Obj(fields)), key).None?
  {
    SplitWithoutDots(key);
    assert LegacyFold(Some(Obj(fields)), [key]) == LegacyFold(LegacyStep(Some(Obj(fields)), key), [key][1..]);
  }

  /** The documented example: `getValue({ foo: { bar: 10 } }, "foo.bar")` is 10. */
  lemma LegacyGetValueDocExample()
    ensures LegacyGetValue(Some(Obj([("foo", Obj([("bar", Num(10))]))])), "foo.bar") == Some(Num(10))
  {
    var o := Obj([("foo", Obj([("bar", Num(10))]))]);
    LegacyGetValueComposes(Some(o), "foo", "bar");
    LegacyGetValueOneKey(o.fields, "foo");
    LegacyGetValueOneKey(o.fields[0].1.fields, "bar");
    assert "foo" + "." + "bar" == "foo.bar";
  }

  /** The older version answers `undefined` where the newer one answers `null` for a missing key. */
  lemma LegacyMissingKeyIsUndefined()
    ensures LegacyGetValue(Some(SampleObject()), "hi") == None
    ensures GetValue(SampleObject(), "hi") == Null
  {
    LegacyGetValueOneKey(SampleObject().fields, "hi");
    GetValueOneKey(SampleObject().fields, "hi");
  }

  lemma {:induction false} FoldRefinesLegacy(v: Option<Json>, keys: seq<string>)
    ensures Fold(v.GetOr(Null), keys) == LegacyFold(v, keys).GetOr(Null)
    decreases |keys|
  {
    if |keys| > 0 {
      assert Step(v.GetOr(Null), keys[0]) == LegacyStep(v, keys[0]).GetOr(Null);
      FoldRefinesLegacy(LegacyStep(v, keys[0]), keys[1..]);
    }
  }

  /** The two generations agree everywhere once the older one's `undefined` is read as `null`. */
  lemma GetValueRefinesLegacy(root: Json, keyPath: string)
    ensures GetValue(root, keyPath) == LegacyGetValue(Some(root), keyPath).GetOr(Null)
  {
    FoldRefinesLegacy(Some(root), Split(keyPath));
  }
}
