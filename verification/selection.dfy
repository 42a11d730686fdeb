/**
 * The multi-select toggle shared by the Scheduler, Creator and Onboarding pages:
 * `prev.includes(id) ? prev.filter(x => x !== id) : [...prev, id]`.
 */
module Selection {
  import opened Seqs

  ghost predicate NoDuplicates<T>(xs: seq<T>) {
    forall i, j :: 0 <= i < j < |xs| ==> xs[i] != xs[j]
  }

  /** `xs.filter(y => y !== x)`: every occurrence of `x` dropped, the rest kept in order. */
  function Remove<T(==,!new)>(xs: seq<T>, x: T): (r: seq<T>)
    ensures x !in r
    ensures forall y :: y != x ==> (y in r <==> y in xs)
    ensures IsSubsequence(r, xs)
    ensures x in xs ==> |r| < |xs|
    ensures x !in xs ==> r == xs
    ensures NoDuplicates(xs) ==> NoDuplicates(r)
    decreases |xs|
  {
    if |xs| == 0 then []
    else
      var rest := Remove(xs[1..], x);
      if xs[0] == x then rest
      else
        assert NoDuplicates(xs) ==> xs[0] !in xs[1..];
        [xs[0]] + rest
  }

  /** Selects `x` (appended at the end) when absent, deselects it when present. */
  function Toggle<T(==,!new)>(xs: seq<T>, x: T): (r: seq<T>)
    ensures x in r <==> x !in xs
    ensures forall y :: y != x ==> (y in r <==> y in xs)
    ensures x !in xs ==> r == xs + [x]
    ensures x in xs ==> IsSubsequence(r, xs) && |r| < |xs|
    ensures NoDuplicates(xs) ==> NoDuplicates(r)
  {
    if x in xs then Remove(xs, x) else xs + [x]
  }

  /** Toggling the same id twice gives back the same selection as a set. */
  lemma ToggleTwiceSameMembers<T(!new)>(xs: seq<T>, x: T)
    ensures forall y :: y in Toggle(Toggle(xs, x), x) <==> y in xs
  {
  }

  /** Removing an id that was just appended to a list not holding it restores the list. */
  lemma {:induction false} RemoveAppended<T(!new)>(xs: seq<T>, x: T)
    requires x !in xs
    ensures Remove(xs + [x], x) == xs
    decreases |xs|
  {
    if |xs| == 0 {
      assert xs + [x] == [x];
    } else {
      assert (xs + [x])[1..] == xs[1..] + [x];
      RemoveAppended(xs[1..], x);
    }
  }

  /** Selecting and then deselecting an id that was not selected restores the exact list. */
  lemma ToggleTwiceRestores<T(!new)>(xs: seq<T>, x: T)
    requires x !in xs
    ensures Toggle(Toggle(xs, x), x) == xs
  {
    RemoveAppended(xs, x);
  }
}
