/**
 * JSON-like values as the JavaScript code sees them: the parsed API responses,
 * the settings store and the exported entries. Objects keep their keys in
 * insertion order, as JavaScript objects do for keys that are not integer-like
 * (JavaScript lists keys such as "0" or "42" first, in ascending order; no key
 * the modelled code uses is of that kind).
 */
module JsonValues {
  import opened Wrappers

  datatype Json =
    | Null
    | Bool(b: bool)
    | Num(n: int)
    | Str(s: string)
    | Arr(elems: seq<Json>)
    | Obj(fields: seq<(string, Json)>)

  /** JavaScript truthiness: `null`, `false`, `0` and `""` are falsy; every array and object is truthy. */
  predicate Truthy(v: Json) {
    match v
    case Null => false
    case Bool(b) => b
    case Num(n) => n != 0
    case Str(s) => s != ""
    case Arr(_) => true
    case Obj(_) => true
  }

  /** Truthiness of a value that may be `undefined` (None); `undefined` is falsy. */
  predicate TruthyOrUndefined(v: Option<Json>) {
    v.Some? && Truthy(v.value)
  }

  /** The keys of an object, in order. */
  function Keys(fields: seq<(string, Json)>): (ks: seq<string>)
    ensures |ks| == |fields|
    ensures forall i :: 0 <= i < |fields| ==> ks[i] == fields[i].0
  {
    seq(|fields|, i requires 0 <= i < |fields| => fields[i].0)
  }

  /** No string occurs twice. */
  predicate Distinct(xs: seq<string>) {
    forall i, j :: 0 <= i < j < |xs| ==> xs[i] != xs[j]
  }

  /** No key occurs twice in an object. */
  predicate DistinctKeys(fields: seq<(string, Json)>) {
    forall i, j :: 0 <= i < j < |fields| ==> fields[i].0 != fields[j].0
  }

  /** The value stored under `key`, or `undefined` when the object has no such key. */
  function Lookup(fields: seq<(string, Json)>, key: string): Option<Json> {
    if |fields| == 0 then None
    else if fields[0].0 == key then Some(fields[0].1)
    else Lookup(fields[1..], key)
  }

  /** A key is undefined exactly when no field has it; otherwise the first field with that key answers. */
  lemma {:induction false} LookupSpec(fields: seq<(string, Json)>, key: string)
    ensures Lookup(fields, key).None? <==> forall i :: 0 <= i < |fields| ==> fields[i].0 != key
    ensures Lookup(fields, key).Some? ==>
              exists i :: 0 <= i < |fields| && fields[i] == (key, Lookup(fields, key).value)
                          && forall j :: 0 <= j < i ==> fields[j].0 != key
  {
    if |fields| > 0 && fields[0].0 != key {
      LookupSpec(fields[1..], key);
      if Lookup(fields, key).Some? {
        var i :| 0 <= i < |fields| - 1 && fields[1..][i] == (key, Lookup(fields, key).value)
                 && forall j :: 0 <= j < i ==> fields[1..][j].0 != key;
        assert fields[i + 1] == (key, Lookup(fields, key).value);
        assert forall j :: 0 <= j < i + 1 ==> fields[j].0 != key by {
          forall j | 0 <= j < i + 1 ensures fields[j].0 != key {
            if j > 0 { assert fields[j] == fields[1..][j - 1]; }
          }
        }
      }
    } else if |fields| > 0 {
      assert fields[0] == (key, Lookup(fields, key).value);
    }
  }

  /**
   * `v[key]` on a truthy value. Objects answer from their fields; any other value
   * is modelled as having no properties.
   */
  function Property(v: Json, key: string): (r: Option<Json>)
    ensures !v.Obj? ==> r.None?
  {
    if v.Obj? then Lookup(v.fields, key) else None
  }

  /** Decimal text of a natural number. */
  function NatText(n: nat): (s: string)
    ensures |s| >= 1
    ensures forall i :: 0 <= i < |s| ==> '0' <= s[i] <= '9'
  {
    if n < 10 then [(n + '0' as int) as char]
    else NatText(n / 10) + [((n % 10) + '0' as int) as char]
  }

  function IntText(n: int): string {
    if n < 0 then "-" + NatText(-n) else NatText(n)
  }

  /**
   * The string JavaScript's template literal `${v}` produces: `null` prints as
   * "null", arrays are joined with "," (null elements print empty), objects
   * print as "[object Object]".
   */
  function TemplateText(v: Json): string
    decreases v, 1, 0
  {
    match v
    case Null => "null"
    case Bool(b) => if b then "true" else "false"
    case Num(n) => IntText(n)
    case Str(s) => s
    case Arr(_) => JoinedText(v, 0)
    case Obj(_) => "[object Object]"
  }

  /** `Array.prototype.join(",")` over the elements of `v` from index `i` on. */
  function JoinedText(v: Json, i: nat): string
    requires v.Arr? && i <= |v.elems|
    decreases v, 0, |v.elems| - i
  {
    if i == |v.elems| then ""
    else
      var e := v.elems[i];
      var text := if e.Null? then "" else TemplateText(e);
      if i + 1 == |v.elems| then text else text + "," + JoinedText(v, i + 1)
  }
}
