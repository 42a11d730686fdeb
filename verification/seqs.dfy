/** Sequence helpers standing in for the array methods the pages use (`filter`, `map`, `slice`). */
module Seqs {

  /** `sub` can be obtained from `s` by deleting elements, keeping the order of the rest. */
  ghost predicate IsSubsequence<T>(sub: seq<T>, s: seq<T>)
    decreases |s|
  {
    if |sub| == 0 then true
    else if |s| == 0 then false
    else (sub[0] == s[0] && IsSubsequence(sub[1..], s[1..])) || IsSubsequence(sub, s[1..])
  }

  function Min(a: int, b: int): int {
    if a <= b then a else b
  }

  /** `Array.prototype.filter`: the elements of `s` that satisfy `keep`, in their original order. */
  function Filter<T(!new)>(s: seq<T>, keep: T -> bool): (r: seq<T>)
    ensures |r| <= |s|
    ensures forall i :: 0 <= i < |r| ==> keep(r[i])
    ensures forall x :: x in r <==> x in s && keep(x)
    ensures (forall i :: 0 <= i < |s| ==> keep(s[i])) ==> r == s
    decreases |s|
  {
    if |s| == 0 then []
    else
      var rest := Filter(s[1..], keep);
      if keep(s[0]) then [s[0]] + rest else rest
  }

  /** `Array.prototype.map`. */
  function Map<T, U>(s: seq<T>, f: T -> U): (r: seq<U>)
    ensures |r| == |s|
    ensures forall i :: 0 <= i < |s| ==> r[i] == f(s[i])
  {
    seq(|s|, i requires 0 <= i < |s| => f(s[i]))
  }

  /** `s.slice(0, n)` for `n >= 0`: the first `min(n, |s|)` elements. */
  function Take<T>(s: seq<T>, n: nat): (r: seq<T>)
    ensures |r| == Min(n, |s|)
    ensures r <= s
  {
    if n <= |s| then s[..n] else s
  }

  /** `s.slice(-n)` for `n > 0`: the last `min(n, |s|)` elements. */
  function TakeLast<T>(s: seq<T>, n: nat): (r: seq<T>)
    ensures |r| == Min(n, |s|)
    ensures s == s[..|s| - |r|] + r
  {
    if n <= |s| then s[|s| - n..] else s
  }

  /** When `keep` holds of one value only, and `s` holds that value once, the filter leaves just it. */
  lemma FilterSingle<T(!new)>(s: seq<T>, keep: T -> bool, x: T)
    requires forall y :: keep(y) <==> y == x
    requires multiset(s)[x] == 1
    ensures Filter(s, keep) == [x]
  {
    var r := Filter(s, keep);
    FilterMultiset(s, keep);
    assert multiset(r) == multiset{x};
    assert |r| == |multiset(r)| == 1;
    assert r[0] in r;
  }

  /** A shorter suffix ends a longer one. */
  lemma TakeLastNest<T>(s: seq<T>, m: nat, n: nat)
    requires m <= n
    ensures var a := TakeLast(s, m);
      var b := TakeLast(s, n);
      |a| <= |b| && b == b[..|b| - |a|] + a
  {
    var a := TakeLast(s, m);
    var b := TakeLast(s, n);
    assert a == s[|s| - |a|..];
    assert b == s[|s| - |b|..];
    assert b[|b| - |a|..] == a;
  }

  /** One step of `Filter`: the head is kept or dropped, then the tail is filtered. */
  lemma FilterStep<T(!new)>(s: seq<T>, keep: T -> bool)
    requires |s| > 0
    ensures Filter(s, keep) == (if keep(s[0]) then [s[0]] else []) + Filter(s[1..], keep)
  {
  }

  /** `Filter` keeps the surviving elements in their original order. */
  lemma {:induction false} FilterIsSubsequence<T(!new)>(s: seq<T>, keep: T -> bool)
    ensures IsSubsequence(Filter(s, keep), s)
    decreases |s|
  {
    if |s| > 0 {
      FilterIsSubsequence(s[1..], keep);
    }
  }

  /** `Filter` keeps every copy of a surviving element and no copy of the others. */
  lemma {:induction false} FilterMultiset<T(!new)>(s: seq<T>, keep: T -> bool)
    ensures forall x :: multiset(Filter(s, keep))[x] == if keep(x) then multiset(s)[x] else 0
    decreases |s|
  {
    if |s| > 0 {
      FilterMultiset(s[1..], keep);
      assert s == [s[0]] + s[1..];
    }
  }

  /** Filtering a concatenation filters each part. */
  lemma {:induction false} FilterAppend<T(!new)>(a: seq<T>, b: seq<T>, keep: T -> bool)
    ensures Filter(a + b, keep) == Filter(a, keep) + Filter(b, keep)
    decreases |a|
  {
    if |a| > 0 {
      FilterAppend(a[1..], b, keep);
      assert (a + b)[1..] == a[1..] + b;
      FilterStep(a + b, keep);
      FilterStep(a, keep);
    } else {
      assert a + b == b;
    }
  }
}
