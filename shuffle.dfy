/** The in-place shuffle both `createDeck`s (and `createTacticsDeck`) run:
    for i from the last index down to 1, swap entry i with entry j, where j is
    drawn uniformly from 0..i. The random draws are an input
    here: picks[i] is the j drawn at step i, so 0 <= picks[i] <= i. */
module Shuffle {

  predicate ValidPicks(picks: seq<nat>, n: nat)
  {
    |picks| == n && forall i | 0 <= i < n :: picks[i] <= i
  }

  function Swap<T>(s: seq<T>, i: nat, j: nat): (r: seq<T>)
    requires i < |s| && j < |s|
    ensures |r| == |s|
  {
    s[i := s[j]][j := s[i]]
  }

  lemma SwapPermutes<T>(s: seq<T>, i: nat, j: nat)
    requires i < |s| && j < |s|
    ensures multiset(Swap(s, i, j)) == multiset(s)
  {
    if i != j {
      var u := s[i := s[j]];
      assert multiset(u) == multiset(s) - multiset{s[i]} + multiset{s[j]};
      assert multiset(u[j := s[i]]) == multiset(u) - multiset{u[j]} + multiset{s[i]};
    }
  }

  /** The sequence after the loop iterations for i, i-1, ..., 1. */
  function ShuffledFrom<T>(s: seq<T>, picks: seq<nat>, i: int): (r: seq<T>)
    requires ValidPicks(picks, |s|) && -1 <= i < |s|
    ensures |r| == |s|
    decreases i
  {
    if i <= 0 then s else ShuffledFrom(Swap(s, i, picks[i]), picks, i - 1)
  }

  /** Every step is a swap, so the shuffle only rearranges. */
  lemma {:induction false} ShuffledFromPermutes<T>(s: seq<T>, picks: seq<nat>, i: int)
    requires ValidPicks(picks, |s|) && -1 <= i < |s|
    ensures multiset(ShuffledFrom(s, picks, i)) == multiset(s)
    decreases i
  {
    if i > 0 {
      var t := Swap(s, i, picks[i]);
      SwapPermutes(s, i, picks[i]);
      ShuffledFromPermutes(t, picks, i - 1);
    }
  }

  /** The outcome of the whole shuffle; a permutation of s. */
  function Shuffled<T>(s: seq<T>, picks: seq<nat>): (r: seq<T>)
    requires ValidPicks(picks, |s|)
    ensures |r| == |s| && multiset(r) == multiset(s)
  {
    ShuffledFromPermutes(s, picks, |s| - 1);
    ShuffledFrom(s, picks, |s| - 1)
  }

  method ShuffleInPlace<T>(a: array<T>, picks: seq<nat>)
    requires ValidPicks(picks, a.Length)
    modifies a
    ensures a[..] == Shuffled(old(a[..]), picks)
  {
    ghost var target := Shuffled(a[..], picks);
    var i := a.Length - 1;
    while i > 0
      invariant -1 <= i < a.Length
      invariant ShuffledFrom(a[..], picks, i) == target
    {
      ghost var before := a[..];
      SwapEntries(a, i, picks[i]);
      ShuffledFromStep(before, picks, i, a[..]);
      i := i - 1;
    }
  }

  /** One iteration of the loop, read off the definition. */
  lemma ShuffledFromStep<T>(s: seq<T>, picks: seq<nat>, i: int, t: seq<T>)
    requires ValidPicks(picks, |s|) && 0 < i < |s|
    requires t == Swap(s, i, picks[i])
    ensures ShuffledFrom(s, picks, i) == ShuffledFrom(t, picks, i - 1)
  {
  }

  /** Exchange entries i and j of the array. */
  method SwapEntries<T>(a: array<T>, i: nat, j: nat)
    requires i < a.Length && j < a.Length
    modifies a
    ensures a[..] == Swap(old(a[..]), i, j)
  {
    var t := a[i];
    a[i] := a[j];
    a[j] := t;
  }
}
