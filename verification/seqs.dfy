/**
 * Sequence operations the pages use on their record lists:
 * `Array.prototype.filter`, `Array.prototype.slice`, and the set of values
 * a list maps to (`new Set(list.map(f))`).
 */
module Seqs {

  /** `r` can be obtained from `s` by deleting elements, without reordering the rest. */
  predicate IsSubsequence<T(==)>(r: seq<T>, s: seq<T>)
    decreases |s|
  {
    if r == [] then true
    else if s == [] then false
    else (r[0] == s[0] && IsSubsequence(r[1..], s[1..])) || IsSubsequence(r, s[1..])
  }

  /** `s.filter(p)`: the elements of `s` for which `p` holds, in their original order. */
  function Filter<T(!new)>(s: seq<T>, p: T -> bool): (r: seq<T>)
    ensures |r| <= |s|
    ensures forall i :: 0 <= i < |r| ==> p(r[i])
    ensures forall x :: multiset(r)[x] == if p(x) then multiset(s)[x] else 0
  {
    if s == [] then []
    else
      var rest := Filter(s[1..], p);
      assert s == [s[0]] + s[1..];
      if p(s[0]) then [s[0]] + rest else rest
  }

  /** Filtering keeps the survivors in the order they had. */
  lemma {:induction false} FilterIsSubsequence<T(!new)>(s: seq<T>, p: T -> bool)
    ensures IsSubsequence(Filter(s, p), s)
  {
    if s != [] {
      FilterIsSubsequence(s[1..], p);
      var rest := Filter(s[1..], p);
      if p(s[0]) {
        assert Filter(s, p) == [s[0]] + rest;
        assert ([s[0]] + rest)[1..] == rest;
      } else {
        assert Filter(s, p) == rest;
        if rest != [] {
          assert IsSubsequence(rest, s[1..]);
        }
      }
    }
  }

  /** A predicate that holds of every element keeps the whole list. */
  lemma {:induction false} FilterKeepsAll<T(!new)>(s: seq<T>, p: T -> bool)
    requires forall i :: 0 <= i < |s| ==> p(s[i])
    ensures Filter(s, p) == s
  {
    if s != [] {
      FilterKeepsAll(s[1..], p);
      assert [s[0]] + s[1..] == s;
    }
  }

  /** Filtering by a predicate and by its negation splits the list: the two lengths add up to the whole. */
  lemma {:induction false} FilterComplement<T(!new)>(s: seq<T>, p: T -> bool, q: T -> bool)
    requires forall x :: q(x) == !p(x)
    ensures |Filter(s, p)| + |Filter(s, q)| == |s|
  {
    if s != [] {
      FilterComplement(s[1..], p, q);
    }
  }

  /** `s.slice(start, end)` with JavaScript's rules: a negative bound counts from the end, every bound is clamped to `[0, |s|]`, and an empty range gives `[]`. */
  function JsSlice<T>(s: seq<T>, start: int, end: int): seq<T> {
    var from := ClampIndex(|s|, start);
    var to := ClampIndex(|s|, end);
    if from < to then s[from..to] else []
  }

  /** How `slice` resolves one bound against a list of length `n`. */
  function ClampIndex(n: nat, k: int): (r: nat)
    ensures r <= n
  {
    if k < 0 then (if n + k < 0 then 0 else n + k)
    else if k > n then n
    else k
  }

  /** `new Set(s.map(f))`: the distinct values `f` takes on the list. */
  function Image<T, U>(s: seq<T>, f: T -> U): set<U> {
    set i | 0 <= i < |s| :: f(s[i])
  }

  /** A list of `n` elements maps to at most `n` distinct values, and to none exactly when it is empty. */
  lemma {:induction false} ImageSize<T, U>(s: seq<T>, f: T -> U)
    ensures |Image(s, f)| <= |s|
    ensures |Image(s, f)| == 0 <==> s == []
  {
    if s != [] {
      ImageSize(s[1..], f);
      assert f(s[0]) in Image(s, f);
      assert Image(s, f) == {f(s[0])} + Image(s[1..], f) by {
        forall y | y in Image(s, f) ensures y in {f(s[0])} + Image(s[1..], f) {
          var i :| 0 <= i < |s| && f(s[i]) == y;
          if i > 0 { assert s[1..][i - 1] == s[i]; }
        }
        forall y | y in Image(s[1..], f) ensures y in Image(s, f) {
          var i :| 0 <= i < |s[1..]| && f(s[1..][i]) == y;
          assert s[i + 1] == s[1..][i];
        }
      }
    }
  }
}
