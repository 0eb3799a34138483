/**
 * The array operations the admission handlers are written with:
 * `Array.prototype.filter`, `map` and `join`.
 */
module Sequences {

  /** `s.filter(p)`: the elements of `s` that satisfy `p`, in their original order. */
  function Filter<T>(s: seq<T>, p: T -> bool): (r: seq<T>)
    ensures |r| <= |s|
    ensures forall x :: x in r ==> x in s && p(x)
    ensures forall i :: 0 <= i < |s| && p(s[i]) ==> s[i] in r
  {
    if s == [] then [] else (if p(s[0]) then [s[0]] else []) + Filter(s[1..], p)
  }

  /** Filtering a concatenation filters each part: the relative order of kept elements is the input order. */
  lemma {:induction false} FilterAppend<T>(s: seq<T>, t: seq<T>, p: T -> bool)
    ensures Filter(s + t, p) == Filter(s, p) + Filter(t, p)
  {
    if s == [] {
      assert s + t == t;
    } else {
      assert (s + t)[1..] == s[1..] + t;
      FilterAppend(s[1..], t, p);
    }
  }

  /** `s.map(f)`. */
  function Map<T, U>(s: seq<T>, f: T -> U): (r: seq<U>)
    ensures |r| == |s|
    ensures forall i :: 0 <= i < |s| ==> r[i] == f(s[i])
  {
    seq(|s|, i requires 0 <= i < |s| => f(s[i]))
  }

  /** `t` occurs somewhere inside `s` (JavaScript `s.includes(t)`). */
  predicate IsInfix(t: string, s: string)
  {
    exists k | 0 <= k <= |s| - |t| :: OccursAt(t, s, k)
  }

  /** `t` occurs in `s` starting at index `k`. */
  predicate OccursAt(t: string, s: string, k: int)
  {
    0 <= k <= |s| - |t| && s[k..k + |t|] == t
  }

  lemma InfixOfSuffix(t: string, a: string, b: string)
    requires IsInfix(t, b)
    ensures IsInfix(t, a + b)
  {
    var k :| 0 <= k <= |b| - |t| && OccursAt(t, b, k);
    assert (a + b)[|a| + k..|a| + k + |t|] == b[k..k + |t|];
    assert OccursAt(t, a + b, |a| + k);
  }

  /** What occurs in `b` for every entry of `ts` also occurs in `a + b`. */
  lemma InfixesOfSuffix(ts: seq<string>, a: string, b: string)
    requires forall i :: 0 <= i < |ts| ==> IsInfix(ts[i], b)
    ensures forall i :: 0 <= i < |ts| ==> IsInfix(ts[i], a + b)
  {
    forall i | 0 <= i < |ts| ensures IsInfix(ts[i], a + b) {
      InfixOfSuffix(ts[i], a, b);
    }
  }

  /**
   * `parts.join(sep)`: `""` for no parts; otherwise it starts with the first part, and
   * drops nothing: every part occurs in it.
   */
  function Join(parts: seq<string>, sep: string): (r: string)
    ensures |parts| == 0 ==> r == ""
    ensures |parts| > 0 ==> parts[0] <= r
    ensures forall i :: 0 <= i < |parts| ==> IsInfix(parts[i], r)
  {
    if |parts| == 0 then ""
    else if |parts| == 1 then
      assert OccursAt(parts[0], parts[0], 0);
      parts[0]
    else
      var rest := Join(parts[1..], sep);
      InfixesOfSuffix(parts[1..], parts[0] + sep, rest);
      assert OccursAt(parts[0], parts[0] + sep + rest, 0);
      assert forall i :: 1 <= i < |parts| ==> parts[i] == parts[1..][i - 1];
      parts[0] + sep + rest
  }
}
