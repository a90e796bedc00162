/**
 * Shared vocabulary: optional values, results, a JSON value type, and the
 * few string helpers the adapters use (prefix tests, substring search,
 * joining).
 */
module Common {

  datatype Option<+T> = None | Some(value: T)

  datatype Result<+T, +E> = Ok(value: T) | Err(error: E)

  /** A JSON value as serde_json sees it. Integers and floats are distinct:
      serde_json's `is_f64` is true only for numbers that are neither i64
      nor u64, i.e. for literals written with a fraction or exponent. */
  datatype Json =
    | JNull
    | JBool(b: bool)
    | JInt(i: int)
    | JFloat(f: real)
    | JString(s: string)
    | JArray(items: seq<Json>)
    | JObject(fields: map<string, Json>)

  /** `t` occurs in `s` at position `i`. */
  predicate OccursAt(s: string, i: nat, t: string)
  {
    i + |t| <= |s| && s[i..i + |t|] == t
  }

  predicate StartsWith(s: string, t: string)
  {
    OccursAt(s, 0, t)
  }

  /** The first position at or after `from` where `t` occurs in `s`. */
  function IndexOfFrom(s: string, t: string, from: nat): (r: Option<nat>)
    decreases |s| - from
    ensures r.Some? ==> from <= r.value && OccursAt(s, r.value, t)
    ensures r.Some? ==> forall j :: from <= j < r.value ==> !OccursAt(s, j, t)
    ensures r.None? ==> forall j :: from <= j ==> !OccursAt(s, j, t)
  {
    if from + |t| > |s| then None
    else if s[from..from + |t|] == t then Some(from)
    else IndexOfFrom(s, t, from + 1)
  }

  /** `t` is a substring of `s` (what an unanchored regex without
      metacharacters matches). */
  predicate Contains(s: string, t: string)
  {
    IndexOfFrom(s, t, 0).Some?
  }

  lemma ContainsAt(s: string, t: string, i: nat)
    requires OccursAt(s, i, t)
    ensures Contains(s, t)
  {
  }

  lemma {:induction false} ContainsConcat(a: string, t: string, b: string)
    ensures Contains(a + t + b, t)
  {
    var s := a + t + b;
    assert s[|a|..|a| + |t|] == t;
    ContainsAt(s, t, |a|);
  }

  /** Elements of `parts` separated by `sep` (Rust's `join`). */
  function Join(parts: seq<string>, sep: string): (r: string)
    ensures |parts| == 1 ==> r == parts[0]
    ensures parts == [] ==> r == []
  {
    if parts == [] then []
    else if |parts| == 1 then parts[0]
    else parts[0] + sep + Join(parts[1..], sep)
  }

  /** Every part occurs in the joined string. */
  lemma {:induction false} JoinContainsParts(parts: seq<string>, sep: string, k: nat)
    requires k < |parts|
    ensures Contains(Join(parts, sep), parts[k])
    decreases k
  {
    var joined := Join(parts, sep);
    var t := parts[k];
    if |parts| == 1 {
      assert OccursAt(joined, 0, t);
      ContainsAt(joined, t, 0);
    } else if k == 0 {
      assert joined[..|t|] == t;
      assert OccursAt(joined, 0, t);
      ContainsAt(joined, t, 0);
    } else {
      var rest := Join(parts[1..], sep);
      JoinContainsParts(parts[1..], sep, k - 1);
      var i := IndexOfFrom(rest, t, 0).value;
      var pre := parts[0] + sep;
      assert joined == pre + rest;
      assert joined[|pre| + i..|pre| + i + |t|] == rest[i..i + |t|];
      ContainsAt(joined, t, |pre| + i);
    }
  }

  /** Decimal rendering of a natural number. */
  function NatToString(n: nat): (r: string)
    ensures |r| >= 1
    ensures forall k :: 0 <= k < |r| ==> '0' <= r[k] <= '9'
    decreases n
  {
    if n < 10 then [DigitChar(n)]
    else NatToString(n / 10) + [DigitChar(n % 10)]
  }

  function DigitChar(d: nat): (c: char)
    requires d < 10
    ensures '0' <= c <= '9'
    ensures c as int - '0' as int == d
  {
    (('0' as int) + d) as char
  }

  /** No element of `s` occurs twice. */
  ghost predicate Distinct<K>(s: seq<K>)
  {
    forall i, j :: 0 <= i < j < |s| ==> s[i] != s[j]
  }

  /** `s` lists the elements of `keys`, each once. */
  ghost predicate Enumerates<K(!new)>(s: seq<K>, keys: set<K>)
  {
    Distinct(s) && forall k :: k in keys <==> k in s
  }
}
