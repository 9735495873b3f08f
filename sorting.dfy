/** The ascending numeric sort and the sum that both evaluators apply to
    card values, and what they give on three values. */
module Sorting {

  predicate Sorted(s: seq<int>)
  {
    forall i, j | 0 <= i < j < |s| :: s[i] <= s[j]
  }

  function Insert(x: int, s: seq<int>): (r: seq<int>)
    requires Sorted(s)
    ensures Sorted(r)
    ensures |r| == |s| + 1
    ensures r[0] == if s == [] || x <= s[0] then x else s[0]
  {
    if s == [] || x <= s[0] then
      [x] + s
    else
      [s[0]] + Insert(x, s[1..])
  }

  /** Inserting adds exactly one occurrence of x. */
  lemma {:induction false} InsertPermutes(x: int, s: seq<int>)
    requires Sorted(s)
    ensures multiset(Insert(x, s)) == multiset(s) + multiset{x}
  {
    if s != [] && x > s[0] {
      InsertPermutes(x, s[1..]);
      assert s == [s[0]] + s[1..];
    }
  }

  /** Ascending numeric sort. */
  function SortInts(s: seq<int>): (r: seq<int>)
    ensures Sorted(r)
    ensures |r| == |s|
  {
    if s == [] then [] else Insert(s[0], SortInts(s[1..]))
  }

  /** Sorting only rearranges. */
  lemma {:induction false} SortIntsPermutes(s: seq<int>)
    ensures multiset(SortInts(s)) == multiset(s)
  {
    if s != [] {
      SortIntsPermutes(s[1..]);
      InsertPermutes(s[0], SortInts(s[1..]));
      assert s == [s[0]] + s[1..];
    }
  }

  function Sum(s: seq<int>): int
  {
    if s == [] then 0 else s[0] + Sum(s[1..])
  }

  function Min3(a: int, b: int, c: int): int
  {
    if a <= b && a <= c then a else if b <= c then b else c
  }

  function Max3(a: int, b: int, c: int): int
  {
    if a >= b && a >= c then a else if b >= c then b else c
  }

  /** Three values are a straight: pairwise distinct, spanning exactly three. */
  predicate Consecutive(a: int, b: int, c: int)
  {
    a != b && b != c && a != c && Max3(a, b, c) - Min3(a, b, c) == 2
  }

  lemma ConsecutiveSymmetric(a: int, b: int, c: int)
    ensures Consecutive(a, b, c) == Consecutive(b, a, c) == Consecutive(a, c, b)
  {
  }

  function Ordered3(a: int, b: int, c: int): seq<int>
  {
    if a <= b then
      if b <= c then [a, b, c] else if a <= c then [a, c, b] else [c, a, b]
    else
      if a <= c then [b, a, c] else if b <= c then [b, c, a] else [c, b, a]
  }

  /** What sorting three values gives, stated without the sort: the ends are
      the minimum and maximum, the unit-step test is `Consecutive`, the
      first-equals-last test is "all three equal", and the sum is a+b+c. */
  lemma ThreeSorted(a: int, b: int, c: int)
    ensures var s := SortInts([a, b, c]);
      && |s| == 3
      && s[0] == Min3(a, b, c) && s[2] == Max3(a, b, c)
      && Sum(s) == a + b + c
      && ((s[1] == s[0] + 1 && s[2] == s[1] + 1) <==> Consecutive(a, b, c))
      && ((s[0] == s[1] && s[1] == s[2]) <==> (a == b && b == c))
      && (s[0] == s[2] <==> (a == b && b == c))
  {
    SortThree(a, b, c);
    var o := Ordered3(a, b, c);
    Ordered3Ends(a, b, c);
    SumThree(o[0], o[1], o[2]);
    assert o == [o[0], o[1], o[2]];
    ThreeValuesFacts(a, b, c, o[0], o[1], o[2]);
  }

  /** The insertion sort on three values, unfolded. */
  lemma SortThree(a: int, b: int, c: int)
    ensures SortInts([a, b, c]) == Ordered3(a, b, c)
  {
    assert [a, b, c][1..] == [b, c];
    assert [b, c][1..] == [c];
    assert [c][1..] == [];
    assert SortInts([c]) == [c];
    var t := SortInts([b, c]);
    assert t == Insert(b, [c]);
    assert t == if b <= c then [b, c] else [c, b];
    assert SortInts([a, b, c]) == Insert(a, t);
    if a > t[0] {
      assert t[1..] == [t[1]];
      assert [t[1]][1..] == [];
      assert Insert(a, []) == [a];
      assert Insert(a, [t[1]]) == if a <= t[1] then [a, t[1]] else [t[1], a];
      assert Insert(a, t) == [t[0]] + Insert(a, [t[1]]);
    }
  }

  /** Ordered3 lists the minimum, the middle value and the maximum. */
  lemma Ordered3Ends(a: int, b: int, c: int)
    ensures var o := Ordered3(a, b, c);
      && |o| == 3 && Sorted(o)
      && o[0] == Min3(a, b, c) && o[2] == Max3(a, b, c)
      && o[1] == a + b + c - Min3(a, b, c) - Max3(a, b, c)
  {
  }

  /** The unit-step and all-equal tests on (minimum, middle, maximum). */
  lemma ThreeValuesFacts(a: int, b: int, c: int, x: int, y: int, z: int)
    requires x == Min3(a, b, c) && z == Max3(a, b, c) && y == a + b + c - x - z
    ensures (y == x + 1 && z == y + 1) <==> Consecutive(a, b, c)
    ensures (x == y && y == z) <==> (a == b && b == c)
    ensures x == z <==> (a == b && b == c)
  {
  }

  lemma SumThree(x: int, y: int, z: int)
    ensures Sum([x, y, z]) == x + y + z
  {
    assert [z][1..] == [];
    assert Sum([z]) == z;
    assert [y, z][1..] == [z];
    assert Sum([y, z]) == y + z;
    assert [x, y, z][1..] == [y, z];
  }
}
