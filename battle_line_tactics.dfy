/** The second iteration of the engine (src/App./App.jsx): three leader
    wildcards join the deck, a flag side is scored by the best formation its
    wildcards can stand for, and each play draws a card and decides the game
    by runs and counts with the host checked first. */
module BattleLineTactics {
  import opened Common
  import opened Sorting
  import opened Runs
  import opened Shuffle

  const SlotCount := 9
  const HandSize := 7

  datatype LeaderName = Alexander | Darius | Hector

  /** A number card, or a leader (colour 'special', number 0, type
      'tactics'). Card ids (`red-5`, `tac-alex`, ...) are determined by the
      card, so comparing ids is comparing cards. */
  datatype Card = NumberCard(color: Color, number: int) | Leader(name: LeaderName)

  /** An evaluation result: the formation's rank, the score that breaks ties
      within a rank, and the sum of the numbers. */
  datatype Evaluation = Evaluation(formation: int, score: int, sum: int)

  const Unset := Evaluation(-1, -1, -1)

  predicate AllNumbers(cards: seq<Card>)
  {
    forall i | 0 <= i < |cards| :: cards[i].NumberCard?
  }

  /** The number of each card, position by position. */
  function Numbers(cards: seq<Card>): (r: seq<int>)
    requires AllNumbers(cards)
    ensures |r| == |cards|
    ensures forall i | 0 <= i < |cards| :: r[i] == cards[i].number
  {
    if cards == [] then [] else [cards[0].number] + Numbers(cards[1..])
  }

  /** The colour of each card, position by position. */
  function Colors(cards: seq<Card>): (r: seq<Color>)
    requires AllNumbers(cards)
    ensures |r| == |cards|
    ensures forall i | 0 <= i < |cards| :: r[i] == cards[i].color
  {
    if cards == [] then [] else [cards[0].color] + Colors(cards[1..])
  }

  /** `evaluateConcreteFormation`, called on three cards without wildcards:
      the tier as before; the score is the sum except for a Phalanx, which
      scores its shared number. */
  function EvaluateConcreteFormation(cards: seq<Card>): (r: Evaluation)
    requires |cards| == 3 && AllNumbers(cards)
    ensures HostFormation <= r.formation <= Wedge
  {
    var nums := SortInts(Numbers(cards));
    var colors := Colors(cards);
    var sum := Sum(nums);
    var isFlush := Uniform(colors);
    var isStraight := nums[1] == nums[0] + 1 && nums[2] == nums[1] + 1;
    var isThreeOfAKind := nums[0] == nums[2];
    if isFlush && isStraight then Evaluation(Wedge, sum, sum)
    else if isThreeOfAKind then Evaluation(Phalanx, nums[0], sum)
    else if isFlush then Evaluation(Battalion, sum, sum)
    else if isStraight then Evaluation(Skirmish, sum, sum)
    else Evaluation(HostFormation, sum, sum)
  }

  /** Three number cards evaluate to their tier, their sum, and a score
      that is the sum, or the shared number for a Phalanx. */
  lemma ConcreteOfThree(x: Card, y: Card, z: Card)
    requires x.NumberCard? && y.NumberCard? && z.NumberCard?
    ensures var t := TierOf(x.color, y.color, z.color, x.number, y.number, z.number);
      var sum := x.number + y.number + z.number;
      EvaluateConcreteFormation([x, y, z]) == Evaluation(t, if t == Phalanx then x.number else sum, sum)
  {
    var cards := [x, y, z];
    assert cards[1..] == [y, z] && [y, z][1..] == [z] && [z][1..] == [];
    assert Numbers([z]) == [z.number];
    assert Numbers([y, z]) == [y.number, z.number];
    assert Numbers(cards) == [x.number, y.number, z.number];
    assert Colors([z]) == [z.color];
    assert Colors([y, z]) == [y.color, z.color];
    assert Colors(cards) == [x.color, y.color, z.color];
    ThreeSorted(x.number, y.number, z.number);
    UniformThree(x.color, y.color, z.color);
  }

  /** The evaluation of three number cards does not depend on their order. */
  lemma ConcreteIgnoresOrder(x: Card, y: Card, z: Card)
    requires x.NumberCard? && y.NumberCard? && z.NumberCard?
    ensures EvaluateConcreteFormation([x, y, z]) == EvaluateConcreteFormation([y, x, z])
    ensures EvaluateConcreteFormation([x, y, z]) == EvaluateConcreteFormation([x, z, y])
  {
    ConcreteOfThree(x, y, z);
    ConcreteOfThree(y, x, z);
    ConcreteOfThree(x, z, y);
    TierOfSymmetric(x.color, y.color, z.color, x.number, y.number, z.number);
  }

  /** The largest score a Wedge can reach with cards valued 1..10. */
  const MaxWedgeScore := 27

  /** With numbers in 1..10, a Wedge scores 3m+3 for its lowest number m, so
      at most 27, and at most 3n+3 when it holds a card numbered n <= 8. */
  lemma WedgeBound(x: Card, y: Card, z: Card, n: int)
    requires x.NumberCard? && y.NumberCard? && z.NumberCard?
    requires MinValue <= x.number <= MaxValue && MinValue <= y.number <= MaxValue
    requires MinValue <= z.number <= MaxValue
    requires n == x.number || n == y.number || n == z.number
    ensures var r := EvaluateConcreteFormation([x, y, z]);
      r.formation <= Wedge && (r.formation == Wedge ==> r.score == r.sum <= WedgeScoreWith(n))
  {
    ConcreteOfThree(x, y, z);
  }

  /** The best Wedge score among wedges holding a card numbered n. */
  function WedgeScoreWith(n: int): int
  {
    if n <= 8 then 3 * n + 3 else MaxWedgeScore
  }

  // ---------------------------------------------------------------------
  // The wildcard search

  /** `res` beats `bestResult` in `updateBest`: a higher type, or the same
      type and a higher score. Sums are not compared. */
  predicate Better(r: Evaluation, best: Evaluation)
  {
    Outranks((r.formation, r.score), (best.formation, best.score))
  }

  function UpdateBest(best: Evaluation, r: Evaluation): Evaluation
  {
    if Better(r, best) then r else best
  }

  /** `bestResult`, starting from `best`, after `updateBest` ran on each
      of evals in turn. */
  function FoldBestFrom(best: Evaluation, evals: seq<Evaluation>): Evaluation
  {
    if evals == [] then best
    else UpdateBest(FoldBestFrom(best, evals[..|evals| - 1]), evals[|evals| - 1])
  }

  /** The same, from the initial best, which is -1 in every field. */
  function FoldBest(evals: seq<Evaluation>): Evaluation
  {
    FoldBestFrom(Unset, evals)
  }

  lemma FoldBestStep(best: Evaluation, evals: seq<Evaluation>, n: nat)
    requires n < |evals|
    ensures FoldBestFrom(best, evals[..n + 1]) == UpdateBest(FoldBestFrom(best, evals[..n]), evals[n])
  {
    assert evals[..n + 1][..n] == evals[..n];
  }

  /** Running over s and then over t is running over s + t. */
  lemma {:induction false} FoldBestAppend(best: Evaluation, s: seq<Evaluation>, t: seq<Evaluation>)
    ensures FoldBestFrom(best, s + t) == FoldBestFrom(FoldBestFrom(best, s), t)
    decreases |t|
  {
    if t != [] {
      var t' := t[..|t| - 1];
      assert (s + t)[..|s + t| - 1] == s + t';
      FoldBestAppend(best, s, t');
    } else {
      assert s + t == s;
    }
  }

  /** evals[j] is the first of the maximal entries: nothing beats it, and it
      beats everything before it. */
  predicate FirstBest(evals: seq<Evaluation>, j: int)
  {
    && 0 <= j < |evals|
    && (forall k | 0 <= k < |evals| :: !Better(evals[k], evals[j]))
    && (forall k | 0 <= k < j :: Better(evals[j], evals[k]))
  }

  /** Strict `>` keeps the first maximum: the fold ends on the first entry
      that nothing beats. */
  lemma {:induction false} FoldBestIsFirstBest(evals: seq<Evaluation>) returns (j: int)
    requires |evals| > 0
    requires forall k | 0 <= k < |evals| :: evals[k].formation >= 0
    ensures FirstBest(evals, j) && FoldBest(evals) == evals[j]
  {
    var n := |evals|;
    if n == 1 {
      assert evals[..0] == [];
      assert FoldBest(evals) == UpdateBest(FoldBestFrom(Unset, evals[..0]), evals[0]);
      j := 0;
    } else {
      var prefix := evals[..n - 1];
      var i := FoldBestIsFirstBest(prefix);
      FirstBestExtend(evals, i);
      j := if Better(evals[n - 1], evals[i]) then n - 1 else i;
    }
  }

  /** One more entry: it becomes the first best exactly when it beats the
      current one. */
  lemma FirstBestExtend(evals: seq<Evaluation>, j: int)
    requires |evals| > 1 && FirstBest(evals[..|evals| - 1], j)
    ensures var last := |evals| - 1;
      FirstBest(evals, if Better(evals[last], evals[j]) then last else j)
  {
    var n := |evals|;
    var prefix := evals[..n - 1];
    assert forall k | 0 <= k < n - 1 :: prefix[k] == evals[k];
  }

  /** The positions of the leaders (the wildcards) from i on, in
      increasing order. */
  function WildIndicesFrom(cards: seq<Card>, i: nat): (w: seq<nat>)
    requires i <= |cards|
    ensures |w| <= |cards| - i
    ensures forall k | 0 <= k < |w| :: i <= w[k] < |cards| && cards[w[k]].Leader?
    ensures forall k, l | 0 <= k < l < |w| :: w[k] < w[l]
    ensures forall m | i <= m < |cards| && cards[m].Leader? :: m in w
    decreases |cards| - i
  {
    if i == |cards| then []
    else if cards[i].Leader? then [i] + WildIndicesFrom(cards, i + 1)
    else WildIndicesFrom(cards, i + 1)
  }

  function WildIndices(cards: seq<Card>): (w: seq<nat>)
    ensures |w| <= |cards|
    ensures forall k | 0 <= k < |w| :: w[k] < |cards| && cards[w[k]].Leader?
    ensures forall k, l | 0 <= k < l < |w| :: w[k] < w[l]
    ensures forall m | 0 <= m < |cards| && cards[m].Leader? :: m in w
  {
    WildIndicesFrom(cards, 0)
  }

  /** The 60 substitutes, in the order `allStandardCards` lists them. */
  function StandardCards(): (d: seq<Card>)
    ensures |d| == 60
    ensures forall k | 0 <= k < 60 :: d[k].NumberCard?
  {
    seq(60, k requires 0 <= k < 60 => NumberCard(DeckColor(k), DeckValue(k)))
  }

  /** Every colour and number in 1..10 is among the substitutes. */
  lemma StandardCardsComplete(c: Color, n: int)
    requires MinValue <= n <= MaxValue
    ensures StandardCards()[DeckIndex(c, n)] == NumberCard(c, n)
  {
  }

  /** Cards with a wildcard only at position idx. */
  predicate OneWildAt(cards: seq<Card>, idx: int)
  {
    0 <= idx < |cards| == 3 && forall i | 0 <= i < 3 && i != idx :: cards[i].NumberCard?
  }

  /** Cards with wildcards only at positions i1 < i2. */
  predicate TwoWildsAt(cards: seq<Card>, i1: int, i2: int)
  {
    0 <= i1 < i2 < |cards| == 3 && forall i | 0 <= i < 3 && i != i1 && i != i2 :: cards[i].NumberCard?
  }

  /** The evaluation of the hand with the number card x at idx. */
  function WithOne(cards: seq<Card>, idx: int, x: Card): Evaluation
    requires OneWildAt(cards, idx) && x.NumberCard?
  {
    EvaluateConcreteFormation(cards[idx := x])
  }

  /** The evaluation of the hand with number cards x at i1 and y at i2. */
  function WithTwo(cards: seq<Card>, i1: int, i2: int, x: Card, y: Card): Evaluation
    requires TwoWildsAt(cards, i1, i2) && x.NumberCard? && y.NumberCard?
  {
    EvaluateConcreteFormation(cards[i1 := x][i2 := y])
  }

  /** The evaluations the one-wildcard loop tries, in order. */
  function Cands1(cards: seq<Card>, idx: int): (c: seq<Evaluation>)
    requires OneWildAt(cards, idx)
    ensures |c| == 60 && forall k | 0 <= k < 60 :: c[k].formation >= HostFormation
  {
    seq(60, k requires 0 <= k < 60 => WithOne(cards, idx, StandardCards()[k]))
  }

  /** The evaluations the two-wildcard double loop tries, in order: entry
      60a+b substitutes the a-th card at i1 and the b-th at i2. */
  function Cands2(cards: seq<Card>, i1: int, i2: int): (c: seq<Evaluation>)
    requires TwoWildsAt(cards, i1, i2)
    ensures |c| == 3600 && forall k | 0 <= k < 3600 :: c[k].formation >= HostFormation
  {
    seq(3600, k requires 0 <= k < 3600 =>
      WithTwo(cards, i1, i2, StandardCards()[k / 60], StandardCards()[k % 60]))
  }

  lemma Cands2At(cards: seq<Card>, i1: int, i2: int, a: nat, b: nat)
    requires TwoWildsAt(cards, i1, i2) && a < 60 && b < 60
    ensures 60 * a + b < 3600
    ensures Cands2(cards, i1, i2)[60 * a + b]
      == WithTwo(cards, i1, i2, StandardCards()[a], StandardCards()[b])
  {
    assert (60 * a + b) / 60 == a && (60 * a + b) % 60 == b;
  }

  /** What `evaluateBestFormation` returns. */
  function BestFormation(cards: seq<Card>): Evaluation
  {
    if |cards| != 3 then Evaluation(0, 0, 0)
    else
      var w := WildIndices(cards);
      if |w| == 0 then EvaluateConcreteFormation(cards)
      else if |w| == 1 then FoldBest(Cands1(cards, w[0]))
      else if |w| == 2 then FoldBest(Cands2(cards, w[0], w[1]))
      else Evaluation(Wedge, 30, 30)
  }

  /** Builds the standard cards by pushing, for each colour in turn, the
      numbers 1 to 10. */
  method PushStandardCards() returns (d: seq<Card>)
    ensures d == StandardCards()
  {
    d := [];
    var ci := 0;
    while ci < |Palette|
      invariant 0 <= ci <= |Palette|
      invariant d == StandardCards()[..10 * ci]
    {
      var n := MinValue;
      while n <= MaxValue
        invariant MinValue <= n <= MaxValue + 1
        invariant d == StandardCards()[..10 * ci + n - 1]
      {
        DeckPosition(ci, n);
        d := d + [NumberCard(Palette[ci], n)];
        n := n + 1;
      }
      ci := ci + 1;
    }
  }

  /** `evaluateBestFormation`: anything but three cards scores
      all zero; without wildcards the cards are evaluated as they are;
      one or two wildcards are replaced by every standard card in turn,
      keeping the first strictly better result; three wildcards get a fixed
      answer. */
  method EvaluateBestFormation(cards: seq<Card>) returns (r: Evaluation)
    ensures r == BestFormation(cards)
  {
    if |cards| != 3 {
      return Evaluation(0, 0, 0);
    }
    var wildIndices := WildIndices(cards);
    if |wildIndices| == 0 {
      return EvaluateConcreteFormation(cards);
    }
    var allStandardCards := PushStandardCards();
    if |wildIndices| == 1 {
      r := SearchOneWild(cards, wildIndices[0], allStandardCards);
    } else if |wildIndices| == 2 {
      r := SearchTwoWilds(cards, wildIndices[0], wildIndices[1], allStandardCards);
    } else {
      r := Evaluation(Wedge, 30, 30);
    }
  }

  /** The single loop, overwriting the wildcard's place in a copy of the
      hand. */
  method SearchOneWild(cards: seq<Card>, idx: int, subs: seq<Card>) returns (best: Evaluation)
    requires OneWildAt(cards, idx) && subs == StandardCards()
    ensures best == FoldBest(Cands1(cards, idx))
  {
    var testHand := cards;
    best := Unset;
    var k := 0;
    while k < |subs|
      invariant 0 <= k <= |subs|
      invariant |testHand| == 3 && forall i | 0 <= i < 3 && i != idx :: testHand[i] == cards[i]
      invariant best == FoldBest(Cands1(cards, idx)[..k])
    {
      testHand := testHand[idx := subs[k]];
      assert testHand == cards[idx := subs[k]];
      var res := EvaluateConcreteFormation(testHand);
      FoldBestStep(Unset, Cands1(cards, idx), k);
      best := UpdateBest(best, res);
      k := k + 1;
    }
    assert Cands1(cards, idx)[..k] == Cands1(cards, idx);
  }

  /** The double loop: the outer one fixes the first wildcard, the inner
      one (`SearchSecondWild`) runs through the second. */
  method SearchTwoWilds(cards: seq<Card>, i1: int, i2: int, subs: seq<Card>) returns (best: Evaluation)
    requires TwoWildsAt(cards, i1, i2) && subs == StandardCards()
    ensures best == FoldBest(Cands2(cards, i1, i2))
  {
    var testHand := cards;
    best := Unset;
    var a := 0;
    while a < |subs|
      invariant 0 <= a <= |subs|
      invariant |testHand| == 3 && forall i | 0 <= i < 3 && i != i1 && i != i2 :: testHand[i] == cards[i]
      invariant best == FoldBest(Cands2(cards, i1, i2)[..60 * a])
    {
      testHand := testHand[i1 := subs[a]];
      testHand, best := SearchSecondWild(cards, i1, i2, subs, a, testHand, best);
      Cands2Row(cards, i1, i2, a);
      FoldBestAppend(Unset, Cands2(cards, i1, i2)[..60 * a], Row(cards, i1, i2, a));
      a := a + 1;
    }
    assert Cands2(cards, i1, i2)[..60 * a] == Cands2(cards, i1, i2);
  }

  /** The evaluations the inner loop tries for the a-th substitute at i1. */
  function Row(cards: seq<Card>, i1: int, i2: int, a: nat): (r: seq<Evaluation>)
    requires TwoWildsAt(cards, i1, i2) && a < 60
    ensures |r| == 60
  {
    seq(60, b requires 0 <= b < 60 =>
      WithTwo(cards, i1, i2, StandardCards()[a], StandardCards()[b]))
  }

  /** The candidates are the rows one after another. */
  lemma Cands2Row(cards: seq<Card>, i1: int, i2: int, a: nat)
    requires TwoWildsAt(cards, i1, i2) && a < 60
    ensures Cands2(cards, i1, i2)[..60 * a + 60] == Cands2(cards, i1, i2)[..60 * a] + Row(cards, i1, i2, a)
  {
    var c := Cands2(cards, i1, i2);
    var l, r := c[..60 * a + 60], c[..60 * a] + Row(cards, i1, i2, a);
    forall j | 0 <= j < 60 * a + 60
      ensures l[j] == r[j]
    {
      if j >= 60 * a {
        Cands2At(cards, i1, i2, a, j - 60 * a);
      }
    }
  }

  /** The inner loop, for the choice `subs[a]` at the first wildcard. */
  method SearchSecondWild(cards: seq<Card>, i1: int, i2: int, subs: seq<Card>, a: nat,
                          hand0: seq<Card>, best0: Evaluation) returns (testHand: seq<Card>, best: Evaluation)
    requires TwoWildsAt(cards, i1, i2) && subs == StandardCards() && a < |subs|
    requires |hand0| == 3 && hand0[i1] == subs[a]
    requires forall i | 0 <= i < 3 && i != i1 && i != i2 :: hand0[i] == cards[i]
    ensures |testHand| == 3 && testHand[i1] == subs[a]
    ensures forall i | 0 <= i < 3 && i != i1 && i != i2 :: testHand[i] == cards[i]
    ensures best == FoldBestFrom(best0, Row(cards, i1, i2, a))
  {
    testHand, best := hand0, best0;
    var b := 0;
    while b < |subs|
      invariant 0 <= b <= |subs|
      invariant |testHand| == 3 && forall i | 0 <= i < 3 && i != i1 && i != i2 :: testHand[i] == cards[i]
      invariant testHand[i1] == subs[a]
      invariant best == FoldBestFrom(best0, Row(cards, i1, i2, a)[..b])
    {
      testHand := testHand[i2 := subs[b]];
      assert testHand == cards[i1 := subs[a]][i2 := subs[b]];
      var res := EvaluateConcreteFormation(testHand);
      FoldBestStep(best0, Row(cards, i1, i2, a), b);
      best := UpdateBest(best, res);
      b := b + 1;
    }
    assert Row(cards, i1, i2, a)[..b] == Row(cards, i1, i2, a);
  }

  // ---------------------------------------------------------------------
  // What the search finds

  /** Every number card on the line is numbered 1..10. */
  predicate NumbersInRange(cards: seq<Card>)
  {
    forall i | 0 <= i < |cards| && cards[i].NumberCard? :: MinValue <= cards[i].number <= MaxValue
  }

  lemma StandardCardAt(k: nat)
    requires k < 60
    ensures StandardCards()[k] == NumberCard(DeckColor(k), DeckValue(k))
    ensures MinValue <= DeckValue(k) <= MaxValue
  {
  }

  /** Where the leaders are: none, or one at WildIndices[0], or two at
      WildIndices[0] < WildIndices[1]; every other card is a number card. */
  lemma WildPositions(cards: seq<Card>)
    requires |cards| == 3
    ensures var w := WildIndices(cards);
      && (|w| == 0 ==> AllNumbers(cards))
      && (|w| == 1 ==> OneWildAt(cards, w[0]))
      && (|w| == 2 ==> TwoWildsAt(cards, w[0], w[1]))
      && |w| <= 3
  {
    var w := WildIndices(cards);
    forall i | 0 <= i < 3 && cards[i].Leader?
      ensures i in w
    {
    }
  }

  /** With one leader, the search result is the evaluation of some
      substitution, and the first of the best ones in the order tried. */
  lemma OneWildAttained(cards: seq<Card>, idx: int)
    requires OneWildAt(cards, idx)
    ensures exists k | 0 <= k < 60 ::
      FirstBest(Cands1(cards, idx), k) && FoldBest(Cands1(cards, idx)) == WithOne(cards, idx, StandardCards()[k])
  {
    var j := FoldBestIsFirstBest(Cands1(cards, idx));
  }

  /** No number card 1..10 of any colour in the leader's place does better
      than the search result. */
  lemma OneWildMaximal(cards: seq<Card>, idx: int)
    requires OneWildAt(cards, idx)
    ensures forall c: Color, n | MinValue <= n <= MaxValue ::
      !Better(WithOne(cards, idx, NumberCard(c, n)), FoldBest(Cands1(cards, idx)))
  {
    var c := Cands1(cards, idx);
    var j := FoldBestIsFirstBest(c);
    forall col: Color, n | MinValue <= n <= MaxValue
      ensures !Better(WithOne(cards, idx, NumberCard(col, n)), FoldBest(c))
    {
      StandardCardsComplete(col, n);
      assert c[DeckIndex(col, n)] == WithOne(cards, idx, NumberCard(col, n));
    }
  }

  /** The same two facts with two leaders, over every pair of substitutes. */
  lemma TwoWildAttained(cards: seq<Card>, i1: int, i2: int)
    requires TwoWildsAt(cards, i1, i2)
    ensures exists a, b | 0 <= a < 60 && 0 <= b < 60 ::
      FirstBest(Cands2(cards, i1, i2), 60 * a + b)
      && FoldBest(Cands2(cards, i1, i2)) == WithTwo(cards, i1, i2, StandardCards()[a], StandardCards()[b])
  {
    var c := Cands2(cards, i1, i2);
    var j := FoldBestIsFirstBest(c);
    var a, b := Cands2Index(cards, i1, i2, j);
    assert FirstBest(c, 60 * a + b) && FoldBest(c) == WithTwo(cards, i1, i2, StandardCards()[a], StandardCards()[b]);
  }

  lemma TwoWildMaximal(cards: seq<Card>, i1: int, i2: int)
    requires TwoWildsAt(cards, i1, i2)
    ensures forall c1: Color, n1, c2: Color, n2 | MinValue <= n1 <= MaxValue && MinValue <= n2 <= MaxValue ::
      !Better(WithTwo(cards, i1, i2, NumberCard(c1, n1), NumberCard(c2, n2)), FoldBest(Cands2(cards, i1, i2)))
  {
    forall c1: Color, n1, c2: Color, n2 | MinValue <= n1 <= MaxValue && MinValue <= n2 <= MaxValue
      ensures !Better(WithTwo(cards, i1, i2, NumberCard(c1, n1), NumberCard(c2, n2)), FoldBest(Cands2(cards, i1, i2)))
    {
      TwoWildMaximalAt(cards, i1, i2, NumberCard(c1, n1), NumberCard(c2, n2));
    }
  }

  /** One pair of substitutes at a time. */
  lemma TwoWildMaximalAt(cards: seq<Card>, i1: int, i2: int, x: Card, y: Card)
    requires TwoWildsAt(cards, i1, i2)
    requires x.NumberCard? && MinValue <= x.number <= MaxValue
    requires y.NumberCard? && MinValue <= y.number <= MaxValue
    ensures !Better(WithTwo(cards, i1, i2, x, y), FoldBest(Cands2(cards, i1, i2)))
  {
    var j := FoldBestIsFirstBest(Cands2(cards, i1, i2));
    StandardCardsComplete(x.color, x.number);
    StandardCardsComplete(y.color, y.number);
    Cands2At(cards, i1, i2, DeckIndex(x.color, x.number), DeckIndex(y.color, y.number));
  }

  /** Entry j of the candidates substitutes the (j / 60)-th and (j % 60)-th
      standard cards. */
  lemma Cands2Index(cards: seq<Card>, i1: int, i2: int, j: int) returns (a: nat, b: nat)
    requires TwoWildsAt(cards, i1, i2) && 0 <= j < 3600
    ensures a < 60 && b < 60 && j == 60 * a + b
    ensures Cands2(cards, i1, i2)[j] == WithTwo(cards, i1, i2, StandardCards()[a], StandardCards()[b])
  {
    a, b := j / 60, j % 60;
    Cands2At(cards, i1, i2, a, b);
  }

  // ---------------------------------------------------------------------
  // Consequences for two and three leaders

  /** The two cards completing the best Wedge around a card numbered n. */
  function WedgeMates(n: int): (int, int)
  {
    if n <= 8 then (n + 1, n + 2) else if n == 9 then (8, 10) else (8, 9)
  }

  /** Filling both leaders with the mates of the number card, in its
      colour, gives a Wedge scoring WedgeScoreWith(n). */
  lemma WedgeWitness(cards: seq<Card>, i1: int, i2: int)
    requires TwoWildsAt(cards, i1, i2) && NumbersInRange(cards)
    ensures var n := cards[3 - i1 - i2].number;
      var col := cards[3 - i1 - i2].color;
      var s := WedgeScoreWith(n);
      WithTwo(cards, i1, i2, NumberCard(col, WedgeMates(n).0), NumberCard(col, WedgeMates(n).1))
        == Evaluation(Wedge, s, s)
  {
    var m := 3 - i1 - i2;
    var n, col := cards[m].number, cards[m].color;
    var h := cards[i1 := NumberCard(col, WedgeMates(n).0)][i2 := NumberCard(col, WedgeMates(n).1)];
    assert h == [h[0], h[1], h[2]];
    ConcreteOfThree(h[0], h[1], h[2]);
  }

  /** Two leaders always make a Wedge, the best one the number card allows:
      score 3n+3 for n <= 8 and 27 otherwise. */
  lemma TwoLeadersWedgeAt(cards: seq<Card>, i1: int, i2: int)
    requires TwoWildsAt(cards, i1, i2) && NumbersInRange(cards)
    ensures var s := WedgeScoreWith(cards[3 - i1 - i2].number);
      FoldBest(Cands2(cards, i1, i2)) == Evaluation(Wedge, s, s)
  {
    TwoLeadersAtMost(cards, i1, i2);
    TwoLeadersAtLeast(cards, i1, i2);
  }

  /** The search result is some substitution by number cards 1..10, so it
      is at most the best Wedge holding the number card. */
  lemma TwoLeadersAtMost(cards: seq<Card>, i1: int, i2: int)
    requires TwoWildsAt(cards, i1, i2) && NumbersInRange(cards)
    ensures var r := FoldBest(Cands2(cards, i1, i2));
      r.formation <= Wedge && (r.formation == Wedge ==> r.score == r.sum <= WedgeScoreWith(cards[3 - i1 - i2].number))
  {
    var m := 3 - i1 - i2;
    var j := FoldBestIsFirstBest(Cands2(cards, i1, i2));
    var a, b := Cands2Index(cards, i1, i2, j);
    var h := cards[i1 := StandardCards()[a]][i2 := StandardCards()[b]];
    StandardCardAt(a);
    StandardCardAt(b);
    assert h == [h[0], h[1], h[2]] && h[m] == cards[m];
    WedgeBound(h[0], h[1], h[2], cards[m].number);
  }

  /** Nothing beats the witness Wedge, so the result is a Wedge scoring at
      least as much. */
  lemma TwoLeadersAtLeast(cards: seq<Card>, i1: int, i2: int)
    requires TwoWildsAt(cards, i1, i2) && NumbersInRange(cards)
    ensures var r := FoldBest(Cands2(cards, i1, i2));
      r.formation >= Wedge && (r.formation == Wedge ==> r.score >= WedgeScoreWith(cards[3 - i1 - i2].number))
  {
    var m := 3 - i1 - i2;
    var n, col := cards[m].number, cards[m].color;
    WedgeWitness(cards, i1, i2);
    TwoWildMaximalAt(cards, i1, i2, NumberCard(col, WedgeMates(n).0), NumberCard(col, WedgeMates(n).1));
  }

  /** The same for `evaluateBestFormation` on a hand with two leaders. */
  lemma TwoLeadersMakeWedge(cards: seq<Card>)
    requires |cards| == 3 && |WildIndices(cards)| == 2 && NumbersInRange(cards)
    ensures forall m | 0 <= m < 3 && cards[m].NumberCard? ::
      BestFormation(cards) == Evaluation(Wedge, WedgeScoreWith(cards[m].number), WedgeScoreWith(cards[m].number))
  {
    WildPositions(cards);
    var w := WildIndices(cards);
    TwoLeadersWedgeAt(cards, w[0], w[1]);
    forall m | 0 <= m < 3 && cards[m].NumberCard?
      ensures m == 3 - w[0] - w[1]
    {
      assert m != w[0] && m != w[1];
    }
  }

  /** No three number cards numbered 1..10 reach formation 5 with score 30 and sum 30: a Wedge
      scores at most 27. */
  lemma BelowThirty(h: seq<Card>)
    requires |h| == 3 && AllNumbers(h) && NumbersInRange(h)
    ensures Better(Evaluation(Wedge, 30, 30), EvaluateConcreteFormation(h))
  {
    assert h == [h[0], h[1], h[2]];
    WedgeBound(h[0], h[1], h[2], h[0].number);
  }

  /** The fixed answer for three leaders beats what any hand with fewer
      leaders evaluates to. */
  lemma ThreeLeadersUnbeatable(cards: seq<Card>)
    requires |cards| == 3 && |WildIndices(cards)| < 3 && NumbersInRange(cards)
    ensures Better(Evaluation(Wedge, 30, 30), BestFormation(cards))
  {
    WildPositions(cards);
    var w := WildIndices(cards);
    if |w| == 0 {
      BelowThirty(cards);
    } else if |w| == 1 {
      OneLeaderBelowThirty(cards, w[0]);
    } else {
      TwoLeadersBelowThirty(cards, w[0], w[1]);
    }
  }

  lemma OneLeaderBelowThirty(cards: seq<Card>, idx: int)
    requires OneWildAt(cards, idx) && NumbersInRange(cards)
    ensures Better(Evaluation(Wedge, 30, 30), FoldBest(Cands1(cards, idx)))
  {
    var j := FoldBestIsFirstBest(Cands1(cards, idx));
    StandardCardAt(j);
    BelowThirty(cards[idx := StandardCards()[j]]);
  }

  lemma TwoLeadersBelowThirty(cards: seq<Card>, i1: int, i2: int)
    requires TwoWildsAt(cards, i1, i2) && NumbersInRange(cards)
    ensures Better(Evaluation(Wedge, 30, 30), FoldBest(Cands2(cards, i1, i2)))
  {
    var j := FoldBestIsFirstBest(Cands2(cards, i1, i2));
    var a, b := Cands2Index(cards, i1, i2, j);
    StandardCardAt(a);
    StandardCardAt(b);
    BelowThirty(cards[i1 := StandardCards()[a]][i2 := StandardCards()[b]]);
  }

  // ---------------------------------------------------------------------
  // Game state

  /** `waiting` until a guest joins, `playing`, `finished`. */
  datatype Status = Waiting | Playing | Finished

  /** A board slot: the cards each side committed and whoever took it. */
  datatype Slot = Slot(hostCards: seq<Card>, guestCards: seq<Card>, winner: Option<Side>)

  const EmptySlot := Slot([], [], None)

  /** The game document without ids and timestamps; `winnerId` is reduced
      to the winning side. */
  datatype Game = Game(
    status: Status,
    turn: Side,
    deck: seq<Card>,
    hostHand: seq<Card>,
    guestHand: seq<Card>,
    board: seq<Slot>,
    winner: Option<Side>)

  /** The side a player acts for: whoever is not the host acts as guest. */
  function Role(isHost: bool): Side
  {
    if isHost then Host else Guest
  }

  function Hand(g: Game, s: Side): seq<Card>
  {
    if s == Host then g.hostHand else g.guestHand
  }

  function WithHand(g: Game, s: Side, h: seq<Card>): (r: Game)
    ensures Hand(r, s) == h && Hand(r, Opp(s)) == Hand(g, Opp(s))
    ensures r.(hostHand := g.hostHand, guestHand := g.guestHand) == g
  {
    if s == Host then g.(hostHand := h) else g.(guestHand := h)
  }

  function SideCards(slot: Slot, s: Side): seq<Card>
  {
    if s == Host then slot.hostCards else slot.guestCards
  }

  function WithSideCards(slot: Slot, s: Side, cards: seq<Card>): (r: Slot)
    ensures SideCards(r, s) == cards && SideCards(r, Opp(s)) == SideCards(slot, Opp(s))
    ensures r.winner == slot.winner
  {
    if s == Host then slot.(hostCards := cards) else slot.(guestCards := cards)
  }

  function SlotCards(slot: Slot): multiset<Card>
  {
    multiset(slot.hostCards) + multiset(slot.guestCards)
  }

  /** Every card committed to the board. */
  function BoardCards(board: seq<Slot>): multiset<Card>
  {
    if board == [] then multiset{} else SlotCards(board[0]) + BoardCards(board[1..])
  }

  /** Replacing one slot changes the board by that slot's cards only. */
  lemma {:induction false} BoardCardsUpdate(board: seq<Slot>, i: nat, slot: Slot)
    requires i < |board|
    ensures BoardCards(board[i := slot]) + SlotCards(board[i]) == BoardCards(board) + SlotCards(slot)
  {
    if i == 0 {
      assert board[i := slot][1..] == board[1..];
    } else {
      var rest := board[1..];
      BoardCardsUpdate(rest, i - 1, slot);
      assert board[i := slot][1..] == rest[i - 1 := slot];
      assert board[i := slot][0] == board[0];
      assert rest[i - 1] == board[i];
      var a, b', b, x, y := SlotCards(board[0]), BoardCards(rest[i - 1 := slot]), BoardCards(rest),
                            SlotCards(board[i]), SlotCards(slot);
      assert a + b' + x == a + (b' + x);
    }
  }

  /** All cards of the game: the deck, both hands and the board. */
  function CardsIn(g: Game): multiset<Card>
  {
    multiset(g.deck) + multiset(g.hostHand) + multiset(g.guestHand) + BoardCards(g.board)
  }

  /** Nine slots, at most three cards per side on each. */
  predicate Valid(g: Game)
  {
    && |g.board| == SlotCount
    && forall i | 0 <= i < |g.board| :: |g.board[i].hostCards| <= 3 && |g.board[i].guestCards| <= 3
  }

  // ---------------------------------------------------------------------
  // Deciding a slot

  /** Once both sides hold three cards the slot goes to the higher type,
      then the higher score, and on a full tie to the side that did not
      just play. Sums are not compared. */
  function ResolveSlot(slot: Slot, mover: Side): (r: Slot)
    ensures r.hostCards == slot.hostCards && r.guestCards == slot.guestCards
    ensures !(|slot.hostCards| == 3 && |slot.guestCards| == 3) ==> r == slot
    ensures |slot.hostCards| == 3 && |slot.guestCards| == 3 ==>
      var h, v := BestFormation(slot.hostCards), BestFormation(slot.guestCards);
      && r.winner.Some?
      && (h.formation > v.formation ==> r.winner == Some(Host))
      && (v.formation > h.formation ==> r.winner == Some(Guest))
      && (h.formation == v.formation && h.score > v.score ==> r.winner == Some(Host))
      && (h.formation == v.formation && v.score > h.score ==> r.winner == Some(Guest))
      && (h.formation == v.formation && h.score == v.score ==> r.winner == Some(Opp(mover)))
  {
    if |slot.hostCards| == 3 && |slot.guestCards| == 3 then
      var h, v := BestFormation(slot.hostCards), BestFormation(slot.guestCards);
      slot.(winner := Some(Contest((h.formation, h.score), (v.formation, v.score), mover)))
    else
      slot
  }

  /** Swapping the two sides' cards and the mover swaps the result. */
  lemma ResolveSlotSymmetric(slot: Slot, mover: Side)
    requires |slot.hostCards| == 3 && |slot.guestCards| == 3
    ensures var swapped := Slot(slot.guestCards, slot.hostCards, slot.winner);
      ResolveSlot(swapped, Opp(mover)).winner == Some(Opp(ResolveSlot(slot, mover).winner.value))
  {
    var h, v := BestFormation(slot.hostCards), BestFormation(slot.guestCards);
    ContestSymmetric((h.formation, h.score), (v.formation, v.score), mover);
  }

  // ---------------------------------------------------------------------
  // The win check

  function SlotOwners(board: seq<Slot>): (o: Owners)
    ensures |o| == |board| && forall i | 0 <= i < |board| :: o[i] == board[i].winner
  {
    seq(|board|, i requires 0 <= i < |board| => board[i].winner)
  }

  /** Holding five slots, or three adjacent ones. */
  predicate Wins(o: Owners, s: Side)
  {
    Count(o, s) >= 5 || HasRun(o, s, 3)
  }

  /** The new status and winner: the host is checked first, then the
      guest; failing both, an exhausted game (no deck, no cards in the
      mover's hand) finishes with the side holding more slots winning, or
      nobody on equal counts; otherwise the status is kept and there is no
      winner. */
  function Outcome(o: Owners, exhausted: bool, status: Status): (Status, Option<Side>)
  {
    if Wins(o, Host) then (Finished, Some(Host))
    else if Wins(o, Guest) then (Finished, Some(Guest))
    else if exhausted then
      (Finished, if Count(o, Host) > Count(o, Guest) then Some(Host)
                 else if Count(o, Guest) > Count(o, Host) then Some(Guest)
                 else None)
    else (status, None)
  }

  /** The `forEach` over the board: slot counts and longest runs per side. */
  method Tally(board: seq<Slot>) returns (hostFlags: nat, guestFlags: nat, maxConsecHost: nat, maxConsecGuest: nat)
    ensures var o := SlotOwners(board);
      && hostFlags == Count(o, Host) && guestFlags == Count(o, Guest)
      && LongestRun(o, Host, maxConsecHost) && LongestRun(o, Guest, maxConsecGuest)
  {
    ghost var o := SlotOwners(board);
    hostFlags, guestFlags, maxConsecHost, maxConsecGuest := 0, 0, 0, 0;
    var consecHost, consecGuest := 0, 0;
    ScanStart(o, Host);
    ScanStart(o, Guest);
    var i := 0;
    while i < |board|
      invariant 0 <= i <= |board|
      invariant ScanState(o, Host, i, hostFlags, consecHost, maxConsecHost)
      invariant ScanState(o, Guest, i, guestFlags, consecGuest, maxConsecGuest)
    {
      ScanStep(o, Host, i, hostFlags, consecHost, maxConsecHost);
      ScanStep(o, Guest, i, guestFlags, consecGuest, maxConsecGuest);
      assert o[i] == board[i].winner;
      hostFlags, guestFlags, consecHost, consecGuest, maxConsecHost, maxConsecGuest :=
        TallySlot(board[i], hostFlags, guestFlags, consecHost, consecGuest, maxConsecHost, maxConsecGuest);
      i := i + 1;
    }
    assert o[..i] == o;
  }

  /** The `forEach` callback for one slot: the owner's count and streak
      grow, the other streak resets, and both maxima follow. */
  method TallySlot(slot: Slot, hostFlags: nat, guestFlags: nat, consecHost: nat, consecGuest: nat,
                   maxConsecHost: nat, maxConsecGuest: nat)
    returns (hostFlags': nat, guestFlags': nat, consecHost': nat, consecGuest': nat,
             maxConsecHost': nat, maxConsecGuest': nat)
    ensures (hostFlags', consecHost', maxConsecHost') ==
      Advance(slot.winner == Some(Host), hostFlags, consecHost, maxConsecHost)
    ensures (guestFlags', consecGuest', maxConsecGuest') ==
      Advance(slot.winner == Some(Guest), guestFlags, consecGuest, maxConsecGuest)
  {
    hostFlags', guestFlags', consecHost', consecGuest' := hostFlags, guestFlags, consecHost, consecGuest;
    if slot.winner == Some(Host) {
      hostFlags' := hostFlags + 1;
      consecHost' := consecHost + 1;
      consecGuest' := 0;
    } else if slot.winner == Some(Guest) {
      guestFlags' := guestFlags + 1;
      consecGuest' := consecGuest + 1;
      consecHost' := 0;
    } else {
      consecHost' := 0;
      consecGuest' := 0;
    }
    maxConsecHost' := if maxConsecHost >= consecHost' then maxConsecHost else consecHost';
    maxConsecGuest' := if maxConsecGuest >= consecGuest' then maxConsecGuest else consecGuest';
  }

  /** The win check of `playCard`, from the tallies. */
  method DecideOutcome(board: seq<Slot>, exhausted: bool, status: Status) returns (newStatus: Status, winner: Option<Side>)
    ensures (newStatus, winner) == Outcome(SlotOwners(board), exhausted, status)
  {
    var hostFlags, guestFlags, maxConsecHost, maxConsecGuest := Tally(board);
    LongestRunAtLeast(SlotOwners(board), Host, maxConsecHost, 3);
    LongestRunAtLeast(SlotOwners(board), Guest, maxConsecGuest, 3);
    newStatus, winner := status, None;
    if hostFlags >= 5 || maxConsecHost >= 3 {
      newStatus, winner := Finished, Some(Host);
    } else if guestFlags >= 5 || maxConsecGuest >= 3 {
      newStatus, winner := Finished, Some(Guest);
    } else if exhausted {
      if hostFlags > guestFlags {
        winner := Some(Host);
      } else if guestFlags > hostFlags {
        winner := Some(Guest);
      }
      newStatus := Finished;
    }
  }

  /** A side meeting a winning condition alone wins, whichever side it
      is; the host's precedence only matters when both meet one. */
  lemma LoneWinner(o: Owners, s: Side, exhausted: bool, status: Status)
    requires Wins(o, s) && !Wins(o, Opp(s))
    ensures Outcome(o, exhausted, status) == (Finished, Some(s))
  {
  }

  /** A winner is only ever announced together with `finished`. */
  lemma WinnerMeansFinished(o: Owners, exhausted: bool, status: Status)
    ensures Outcome(o, exhausted, status).1.Some? ==> Outcome(o, exhausted, status).0 == Finished
  {
  }

  /** With every slot taken the game is decided: one side holds five of
      the nine. */
  lemma FullBoardDecides(o: Owners, exhausted: bool, status: Status)
    requires |o| == SlotCount && forall i | 0 <= i < |o| :: o[i].Some?
    ensures Outcome(o, exhausted, status).0 == Finished && Outcome(o, exhausted, status).1.Some?
  {
    CountsCover(o);
  }

  /** On a board where every slot is taken the two counts add up to the
      number of slots. */
  lemma {:induction false} CountsCover(o: Owners)
    requires forall i | 0 <= i < |o| :: o[i].Some?
    ensures Count(o, Host) + Count(o, Guest) == |o|
  {
    if o != [] {
      var p := o[..|o| - 1];
      assert forall i | 0 <= i < |p| :: p[i] == o[i];
      CountsCover(p);
      assert Count(o, Host) == Count(p, Host) + (if o[|o| - 1] == Some(Host) then 1 else 0);
      assert Count(o, Guest) == Count(p, Guest) + (if o[|o| - 1] == Some(Guest) then 1 else 0);
      if o[|o| - 1].value == Host {
        assert o[|o| - 1] == Some(Host);
      } else {
        assert o[|o| - 1] == Some(Guest);
      }
    }
  }

  // ---------------------------------------------------------------------
  // Playing a card

  /** The hand without the played card, every copy of it removed and the
      other cards kept in order. */
  function RemoveAll(hand: seq<Card>, card: Card): (r: seq<Card>)
    ensures card !in r
    ensures forall c | c != card :: c in r <==> c in hand
  {
    if hand == [] then []
    else if hand[0] == card then RemoveAll(hand[1..], card)
    else [hand[0]] + RemoveAll(hand[1..], card)
  }

  /** Filtering removes every copy of the card and nothing else. */
  lemma {:induction false} RemoveAllMultiset(hand: seq<Card>, card: Card)
    ensures multiset(RemoveAll(hand, card)) == multiset(hand)[card := 0]
  {
    if hand != [] {
      RemoveAllMultiset(hand[1..], card);
      assert hand == [hand[0]] + hand[1..];
    }
  }

  /** The guards of `playCard`: the mover's turn, a slot nobody has taken,
      and fewer than three of the mover's cards there. */
  predicate CanPlay(g: Game, isHost: bool, slotIndex: nat)
  {
    && g.turn == Role(isHost)
    && slotIndex < |g.board|
    && g.board[slotIndex].winner.None?
    && |SideCards(g.board[slotIndex], Role(isHost))| < 3
  }

  /** The game after s played card at slot slotIndex: the card joins the
      mover's side of that slot only, the slot is resolved, every copy of
      the card leaves the mover's hand, the deck's front card (if any) goes
      to the end of it, the turn passes, and status and winner come from
      the win check. */
  predicate Played(g: Game, g': Game, s: Side, card: Card, slotIndex: nat)
    requires slotIndex < |g.board|
  {
    var slot := g.board[slotIndex];
    var kept := RemoveAll(Hand(g, s), card);
    && g'.board == g.board[slotIndex := ResolveSlot(WithSideCards(slot, s, SideCards(slot, s) + [card]), s)]
    && (if g.deck == [] then g'.deck == [] && Hand(g', s) == kept
        else g'.deck == g.deck[1..] && Hand(g', s) == kept + [g.deck[0]])
    && Hand(g', Opp(s)) == Hand(g, Opp(s))
    && g'.turn == Opp(s)
    && (g'.status, g'.winner) == Outcome(SlotOwners(g'.board), g'.deck == [] && Hand(g', s) == [], g.status)
  }

  /** `playCard`: the guards, then the move. Without a selected card, off
      turn, on a taken slot or a full side nothing changes. The selected
      card is not checked to be in the hand; when it is there once the
      cards of the game are kept. */
  method PlayCard(g: Game, isHost: bool, selected: Option<Card>, slotIndex: nat) returns (g': Game)
    requires slotIndex < |g.board|
    ensures !(selected.Some? && CanPlay(g, isHost, slotIndex)) ==> g' == g
    ensures selected.Some? && CanPlay(g, isHost, slotIndex) ==>
      Played(g, g', Role(isHost), selected.value, slotIndex)
    ensures selected.Some? && multiset(Hand(g, Role(isHost)))[selected.value] == 1 ==> CardsIn(g') == CardsIn(g)
    ensures Valid(g) ==> Valid(g')
  {
    if selected.None? {
      return g;
    }
    var s := Role(isHost);
    if g.turn != s || g.board[slotIndex].winner.Some? {
      return g;
    }
    if |SideCards(g.board[slotIndex], s)| >= 3 {
      return g;
    }
    g' := CommitPlay(g, s, selected.value, slotIndex);
  }

  /** The body of `playCard` past its guards. */
  method CommitPlay(g: Game, s: Side, card: Card, slotIndex: nat) returns (g': Game)
    requires slotIndex < |g.board| && |SideCards(g.board[slotIndex], s)| < 3
    ensures Played(g, g', s, card, slotIndex)
    ensures multiset(Hand(g, s))[card] == 1 ==> CardsIn(g') == CardsIn(g)
    ensures multiset(Hand(g, s))[card] == 0 ==> CardsIn(g') == CardsIn(g) + multiset{card}
    ensures Valid(g) ==> Valid(g')
  {
    var targetSlot := g.board[slotIndex];
    targetSlot := WithSideCards(targetSlot, s, SideCards(targetSlot, s) + [card]);
    ghost var appended := targetSlot;
    var flagWinner := targetSlot.winner;
    if |targetSlot.hostCards| == 3 && |targetSlot.guestCards| == 3 {
      var hostEval := EvaluateBestFormation(targetSlot.hostCards);
      var guestEval := EvaluateBestFormation(targetSlot.guestCards);
      flagWinner := Some(Contest((hostEval.formation, hostEval.score), (guestEval.formation, guestEval.score), s));
    }
    targetSlot := targetSlot.(winner := flagWinner);
    assert targetSlot == ResolveSlot(appended, s);
    var newBoard := g.board[slotIndex := targetSlot];
    var newDeck := g.deck;
    var newHand := RemoveAll(Hand(g, s), card);
    if |newDeck| > 0 {
      var drawnCard := newDeck[0];
      newDeck := newDeck[1..];
      newHand := newHand + [drawnCard];
    }
    var newStatus, winner := DecideOutcome(newBoard, |newDeck| == 0 && |newHand| == 0, g.status);
    g' := WithHand(g.(board := newBoard, deck := newDeck, turn := Opp(s), status := newStatus, winner := winner), s, newHand);
    PlayEffects(g, g', s, card, slotIndex);
  }

  /** What a play does to the cards of the game and to the layout. */
  lemma PlayEffects(g: Game, g': Game, s: Side, card: Card, slotIndex: nat)
    requires slotIndex < |g.board| && |SideCards(g.board[slotIndex], s)| < 3
    requires Played(g, g', s, card, slotIndex)
    ensures multiset(Hand(g, s))[card] == 1 ==> CardsIn(g') == CardsIn(g)
    ensures multiset(Hand(g, s))[card] == 0 ==> CardsIn(g') == CardsIn(g) + multiset{card}
    ensures Valid(g) ==> Valid(g')
  {
    PlayConserves(g, g', s, card, slotIndex);
    RemoveAllMultiset(Hand(g, s), card);
    MultisetRemoveCopies(CardsIn(g'), CardsIn(g), multiset(Hand(g, s)), card);
    PlayKeepsValid(g, g', s, card, slotIndex);
  }

  /** The board keeps nine slots and at most three cards per side. */
  lemma PlayKeepsValid(g: Game, g': Game, s: Side, card: Card, slotIndex: nat)
    requires slotIndex < |g.board| && |SideCards(g.board[slotIndex], s)| < 3
    requires Played(g, g', s, card, slotIndex)
    ensures Valid(g) ==> Valid(g')
  {
  }

  /** X + h == Y + h[card := 0] + {card}: with one copy of card in h the two
      totals agree, with none X has the card in addition. */
  lemma MultisetRemoveCopies(x: multiset<Card>, y: multiset<Card>, h: multiset<Card>, card: Card)
    requires x + h == y + h[card := 0] + multiset{card}
    ensures h[card] == 1 ==> x == y
    ensures h[card] == 0 ==> x == y + multiset{card}
  {
    forall e
      ensures x[e] + h[e] == y[e] + h[card := 0][e] + multiset{card}[e]
    {
      assert (x + h)[e] == (y + h[card := 0] + multiset{card})[e];
    }
    if h[card] == 1 {
      forall e
        ensures x[e] == y[e]
      {
      }
    } else if h[card] == 0 {
      forall e
        ensures x[e] == (y + multiset{card})[e]
      {
      }
    }
  }

  /** How the cards of the game change in a play: the card joins the
      board, every copy of it leaves the hand, the front of the deck moves
      to the hand. */
  lemma PlayConserves(g: Game, g': Game, s: Side, card: Card, slotIndex: nat)
    requires slotIndex < |g.board|
    requires Played(g, g', s, card, slotIndex)
    ensures CardsIn(g') + multiset(Hand(g, s)) == CardsIn(g) + multiset(RemoveAll(Hand(g, s), card)) + multiset{card}
  {
    var b, b' := BoardCards(g.board), BoardCards(g'.board);
    var x := SlotCards(g.board[slotIndex]);
    BoardGains(g, g', s, card, slotIndex);
    var kept := RemoveAll(Hand(g, s), card);
    var d, d' := multiset(g.deck), multiset(g'.deck);
    var h, h', k := multiset(Hand(g, s)), multiset(Hand(g', s)), multiset(kept);
    HandGains(g, g', s, card, slotIndex);
    CardsInBySide(g, s);
    CardsInBySide(g', s);
    var o := multiset(Hand(g, Opp(s)));
    MultisetPlay(d, d', h, h', k, o, b, b', x, multiset{card});
  }

  /** The board gains exactly the played card. */
  lemma BoardGains(g: Game, g': Game, s: Side, card: Card, slotIndex: nat)
    requires slotIndex < |g.board|
    requires Played(g, g', s, card, slotIndex)
    ensures var x := SlotCards(g.board[slotIndex]);
      BoardCards(g'.board) + x == BoardCards(g.board) + (x + multiset{card})
  {
    var slot := g.board[slotIndex];
    var slot' := g'.board[slotIndex];
    assert SlotCards(slot') == SlotCards(slot) + multiset{card} by {
      if s == Host {
        assert slot'.hostCards == slot.hostCards + [card];
      } else {
        assert slot'.guestCards == slot.guestCards + [card];
      }
    }
    BoardCardsUpdate(g.board, slotIndex, slot');
  }

  /** The deck and the mover's hand together gain the filtered hand. */
  lemma HandGains(g: Game, g': Game, s: Side, card: Card, slotIndex: nat)
    requires slotIndex < |g.board|
    requires Played(g, g', s, card, slotIndex)
    ensures multiset(g'.deck) + multiset(Hand(g', s)) == multiset(g.deck) + multiset(RemoveAll(Hand(g, s), card))
  {
    if g.deck != [] {
      assert g.deck == [g.deck[0]] + g.deck[1..];
    }
  }

  lemma MultisetPlay(d: multiset<Card>, d': multiset<Card>, h: multiset<Card>, h': multiset<Card>,
                     k: multiset<Card>, o: multiset<Card>, b: multiset<Card>, b': multiset<Card>,
                     x: multiset<Card>, c: multiset<Card>)
    requires d' + h' == d + k && b' + x == b + (x + c)
    ensures d' + h' + o + b' + h == d + h + o + b + k + c
  {
    forall e
      ensures (d' + h' + o + b' + h)[e] == (d + h + o + b + k + c)[e]
    {
      assert (d' + h')[e] == (d + k)[e];
      assert (b' + x)[e] == (b + (x + c))[e];
    }
  }

  /** The cards of the game, grouped by the mover's and the other hand. */
  lemma CardsInBySide(g: Game, s: Side)
    ensures CardsIn(g) == multiset(g.deck) + multiset(Hand(g, s)) + multiset(Hand(g, Opp(s))) + BoardCards(g.board)
  {
    if s == Guest {
      var d, a, b := multiset(g.deck), multiset(g.hostHand), multiset(g.guestHand);
      assert d + a + b == d + b + a;
    }
  }

  // ---------------------------------------------------------------------
  // Setting up a game

  /** The three leaders, in the order they are pushed. */
  const Leaders: seq<Card> := [Leader(Alexander), Leader(Darius), Leader(Hector)]

  /** The 63 cards before shuffling: the 60 standard cards, then the
      leaders. */
  function UnshuffledDeck(): (d: seq<Card>)
    ensures |d| == 63
  {
    StandardCards() + Leaders
  }

  /** Every colour and number 1..10 once, the three leaders once, nothing
      else. */
  lemma UnshuffledDeckComposition()
    ensures forall k | 0 <= k < 63 ::
      (UnshuffledDeck()[k].Leader? || MinValue <= UnshuffledDeck()[k].number <= MaxValue)
    ensures forall c: Color, n | MinValue <= n <= MaxValue :: NumberCard(c, n) in UnshuffledDeck()
    ensures forall l: LeaderName :: Leader(l) in UnshuffledDeck()
    ensures forall i, j | 0 <= i < j < 63 :: UnshuffledDeck()[i] != UnshuffledDeck()[j]
  {
    var d := UnshuffledDeck();
    forall k | 0 <= k < 60
      ensures d[k] == NumberCard(DeckColor(k), DeckValue(k))
    {
      StandardCardAt(k);
    }
    forall c: Color, n | MinValue <= n <= MaxValue
      ensures NumberCard(c, n) in d
    {
      StandardCardsComplete(c, n);
      assert d[DeckIndex(c, n)] == NumberCard(c, n);
    }
    forall l: LeaderName
      ensures Leader(l) in d
    {
      var k := match l case Alexander => 60 case Darius => 61 case Hector => 62;
      assert d[k] == Leader(l);
    }
    forall i, j | 0 <= i < j < 63
      ensures d[i] != d[j]
    {
      if j < 60 && d[i] == d[j] {
        DeckEnumerationInjective(i, j);
      }
    }
  }

  /** `createDeck`: push the standard cards colour by colour, then the
      leaders, then shuffle in place; picks[i] stands for the random index
      drawn at step i. */
  method CreateDeck(picks: seq<nat>) returns (deck: seq<Card>)
    requires ValidPicks(picks, 63)
    ensures deck == Shuffled(UnshuffledDeck(), picks)
    ensures multiset(deck) == multiset(UnshuffledDeck())
  {
    var pushed := PushStandardCards();
    var t := 0;
    while t < |Leaders|
      invariant 0 <= t <= |Leaders|
      invariant pushed == StandardCards() + Leaders[..t]
    {
      pushed := pushed + [Leaders[t]];
      t := t + 1;
    }
    assert pushed == UnshuffledDeck();
    var a := new Card[|pushed|](k requires 0 <= k < |pushed| => pushed[k]);
    assert a[..] == pushed;
    ShuffleInPlace(a, picks);
    deck := a[..];
  }

  lemma {:induction false} BoardCardsEmpty(board: seq<Slot>)
    requires forall i | 0 <= i < |board| :: board[i].hostCards == [] && board[i].guestCards == []
    ensures BoardCards(board) == multiset{}
  {
    if board != [] {
      BoardCardsEmpty(board[1..]);
    }
  }

  /** The game-state part of `createGame`: seven cards to the host and then
      seven to the guest from the front of the shuffled deck, nine empty
      slots, status `waiting`, the host to move. */
  method CreateGame(picks: seq<nat>) returns (g: Game)
    requires ValidPicks(picks, 63)
    ensures var d := Shuffled(UnshuffledDeck(), picks);
      && g.hostHand == d[..HandSize] && g.guestHand == d[HandSize..2 * HandSize]
      && g.deck == d[2 * HandSize..]
    ensures |g.hostHand| == HandSize && |g.guestHand| == HandSize && |g.deck| == 63 - 2 * HandSize
    ensures g.board == seq(SlotCount, _ => EmptySlot)
    ensures g.status == Waiting && g.turn == Host && g.winner.None?
    ensures CardsIn(g) == multiset(UnshuffledDeck())
    ensures Valid(g)
  {
    var deck := CreateDeck(picks);
    ghost var full := deck;
    var hostHand := deck[..HandSize];
    deck := deck[HandSize..];
    var guestHand := deck[..HandSize];
    deck := deck[HandSize..];
    var board := seq(SlotCount, _ => EmptySlot);
    g := Game(Waiting, Host, deck, hostHand, guestHand, board, None);
    assert full == hostHand + guestHand + deck;
    BoardCardsEmpty(board);
    DealConserves(full, hostHand, guestHand, deck);
  }

  lemma DealConserves(full: seq<Card>, a: seq<Card>, b: seq<Card>, rest: seq<Card>)
    requires full == a + b + rest
    ensures multiset(rest) + multiset(a) + multiset(b) + multiset{} == multiset(full)
  {
    assert multiset(full) == multiset(a) + multiset(b) + multiset(rest);
    forall e
      ensures (multiset(rest) + multiset(a) + multiset(b) + multiset{})[e] == multiset(full)[e]
    {
    }
  }
}
