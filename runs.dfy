/** Facts about a row of flag owners read left to right: how many flags a
    side holds, where a side holds several adjacent flags, and the length of
    the block a side holds at the end of a prefix (the streak counter of both
    win checks). */
module Runs {
  import opened Common

  type Owners = seq<Option<Side>>

  /** Number of flags held by s. */
  function Count(o: Owners, s: Side): (n: nat)
    ensures n <= |o|
  {
    if o == [] then 0
    else Count(o[..|o| - 1], s) + (if o[|o| - 1] == Some(s) then 1 else 0)
  }

  lemma CountPrefixStep(o: Owners, s: Side, i: nat)
    requires i < |o|
    ensures Count(o[..i + 1], s) == Count(o[..i], s) + (if o[i] == Some(s) then 1 else 0)
  {
    assert o[..i + 1][..i] == o[..i];
  }

  /** s holds the k flags starting at index i. */
  predicate RunAt(o: Owners, s: Side, i: int, k: nat)
  {
    0 <= i && i + k <= |o| && forall j | i <= j < i + k :: o[j] == Some(s)
  }

  /** s holds k adjacent flags somewhere. */
  predicate HasRun(o: Owners, s: Side, k: nat)
  {
    exists i | 0 <= i <= |o| :: RunAt(o, s, i, k)
  }

  /** m is the length of the longest block of adjacent flags s holds. */
  predicate LongestRun(o: Owners, s: Side, m: nat)
  {
    HasRun(o, s, m) && !HasRun(o, s, m + 1)
  }

  /** A longer run contains every shorter one. */
  lemma HasRunMonotone(o: Owners, s: Side, k: nat, l: nat)
    requires l <= k && HasRun(o, s, k)
    ensures HasRun(o, s, l)
  {
    var i :| 0 <= i <= |o| && RunAt(o, s, i, k);
    assert RunAt(o, s, i, l);
  }

  lemma LongestRunAtLeast(o: Owners, s: Side, m: nat, k: nat)
    requires LongestRun(o, s, m)
    ensures HasRun(o, s, k) <==> k <= m
  {
    if k <= m {
      HasRunMonotone(o, s, m, k);
    } else if HasRun(o, s, k) {
      HasRunMonotone(o, s, k, m + 1);
    }
  }

  /** A run inside a prefix is a run of the whole row, and back. */
  lemma RunAtPrefix(o: Owners, s: Side, n: nat, i: int, k: nat)
    requires n <= |o| && i + k <= n
    ensures RunAt(o[..n], s, i, k) <==> RunAt(o, s, i, k)
  {
  }

  /** Length of the block held by s at the end of p. */
  function Trailing(p: Owners, s: Side): (t: nat)
    ensures t <= |p|
    ensures RunAt(p, s, |p| - t, t)
    ensures t < |p| ==> p[|p| - 1 - t] != Some(s)
  {
    if p == [] || p[|p| - 1] != Some(s) then 0
    else Trailing(p[..|p| - 1], s) + 1
  }

  lemma TrailingStep(o: Owners, s: Side, i: nat)
    requires i < |o|
    ensures Trailing(o[..i + 1], s) == if o[i] == Some(s) then Trailing(o[..i], s) + 1 else 0
  {
    assert o[..i + 1][..i] == o[..i];
  }

  /** The block at the end is at least k long exactly when the last k flags
      all belong to s. */
  lemma TrailingAtLeast(p: Owners, s: Side, k: nat)
    requires k <= |p|
    ensures Trailing(p, s) >= k <==> RunAt(p, s, |p| - k, k)
  {
    var t := Trailing(p, s);
    if t < k {
      assert p[|p| - 1 - t] != Some(s);
    }
  }

  /** One more flag read: the longest run so far becomes the larger of the
      old longest run and the new trailing block. */
  lemma LongestRunStep(o: Owners, s: Side, i: nat, m: nat)
    requires i < |o|
    requires LongestRun(o[..i], s, m)
    requires Trailing(o[..i], s) <= m
    ensures var t := Trailing(o[..i + 1], s);
      LongestRun(o[..i + 1], s, if m >= t then m else t)
  {
    var t := Trailing(o[..i + 1], s);
    var m' := if m >= t then m else t;
    StepKeepsRun(o, s, i, m);
    StepAddsNoLongerRun(o, s, i, m, m');
  }

  lemma StepKeepsRun(o: Owners, s: Side, i: nat, m: nat)
    requires i < |o|
    requires HasRun(o[..i], s, m)
    ensures var t := Trailing(o[..i + 1], s);
      HasRun(o[..i + 1], s, if m >= t then m else t)
  {
    var p, q := o[..i], o[..i + 1];
    var t := Trailing(q, s);
    if m >= t {
      var h :| 0 <= h <= |p| && RunAt(p, s, h, m);
      assert RunAt(q, s, h, m);
    } else {
      assert RunAt(q, s, |q| - t, t);
    }
  }

  lemma StepAddsNoLongerRun(o: Owners, s: Side, i: nat, m: nat, m': nat)
    requires i < |o|
    requires !HasRun(o[..i], s, m + 1)
    requires Trailing(o[..i], s) <= m
    requires m <= m' && Trailing(o[..i + 1], s) <= m'
    ensures !HasRun(o[..i + 1], s, m' + 1)
  {
    var p, q := o[..i], o[..i + 1];
    if HasRun(q, s, m' + 1) {
      var h :| 0 <= h <= |q| && RunAt(q, s, h, m' + 1);
      if h + m' + 1 <= i {
        assert RunAt(p, s, h, m' + 1);
        HasRunMonotone(p, s, m' + 1, m + 1);
        assert false;
      } else {
        assert false;
      }
    }
  }

  /** What a left-to-right scan over the first i owners knows about s: how
      many slots s holds, the block s holds at the end, and the longest
      block so far. */
  predicate ScanState(o: Owners, s: Side, i: nat, count: nat, consec: nat, longest: nat)
    requires i <= |o|
  {
    && count == Count(o[..i], s)
    && consec == Trailing(o[..i], s)
    && LongestRun(o[..i], s, longest) && consec <= longest
  }

  /** The empty prefix: nothing counted. */
  lemma ScanStart(o: Owners, s: Side)
    ensures ScanState(o, s, 0, 0, 0, 0)
  {
    assert RunAt(o[..0], s, 0, 0);
  }

  /** The counters after reading one more owner: the count grows when s
      holds it, the trailing block grows or resets, and the longest block
      is the larger of the old one and the new trailing block. */
  function Advance(holds: bool, count: nat, consec: nat, longest: nat): (nat, nat, nat)
  {
    var consec' := if holds then consec + 1 else 0;
    (count + (if holds then 1 else 0), consec', if longest >= consec' then longest else consec')
  }

  /** Reading owner i takes the summary of i owners to that of i + 1. */
  lemma ScanStep(o: Owners, s: Side, i: nat, count: nat, consec: nat, longest: nat)
    requires i < |o| && ScanState(o, s, i, count, consec, longest)
    ensures var r := Advance(o[i] == Some(s), count, consec, longest);
      ScanState(o, s, i + 1, r.0, r.1, r.2)
  {
    CountPrefixStep(o, s, i);
    TrailingStep(o, s, i);
    LongestRunStep(o, s, i, longest);
  }
}
