/** The first iteration of the engine (src/App.jsx): number cards only in
    formations, a claim/concede protocol for flags, a separate draw step that
    ends the turn, and a win check that scans the flags left to right. */
module BattleLine {
  import opened Common
  import opened Sorting
  import opened Runs
  import opened Shuffle

  const FlagsCount := 9
  const HandSize := 7

  datatype SubType = Morale | Environment | Guile

  /** A card as stored in the game record. `UntypedCard` is a stored card
      without a `type` field, which the formation filter treats as a number
      card. */
  datatype Card =
    | NumberCard(color: Color, value: int)
    | UntypedCard(color: Color, value: int)
    | TacticsCard(id: string, subType: SubType, name: string)

  /** A card of type number, or a card without a type. */
  predicate CountsAsNumber(c: Card)
  {
    c.NumberCard? || c.UntypedCard?
  }

  datatype Formation = Formation(tier: int, sum: int)

  /** One flag: the cards each side committed, who won it, and whose proof
      claim is pending (the claim's timestamp is not modelled). */
  datatype Flag = Flag(hostCards: seq<Card>, guestCards: seq<Card>,
                       owner: Option<Side>, proofClaim: Option<Side>)

  const EmptyFlag := Flag([], [], None, None)

  /** Who issues an action: the host, the guest, or a signed-in user who is
      neither. */
  datatype Player = HostPlayer | GuestPlayer | Onlooker

  /** The side a player acts for: everyone but the host acts as the guest. */
  function Role(p: Player): (s: Side)
    ensures s == Host <==> p == HostPlayer
  {
    if p == HostPlayer then Host else Guest
  }

  /** The two piles `drawAndEndTurn` draws from. */
  datatype DeckChoice = Normal | Tactics

  datatype Game = Game(
    turn: Side,
    hasPlayedCard: bool,
    winner: Option<Side>,
    deck: seq<Card>,
    tacticsDeck: seq<Card>,
    hostHand: seq<Card>,
    guestHand: seq<Card>,
    flags: seq<Flag>)

  function Hand(g: Game, s: Side): seq<Card>
  {
    if s == Host then g.hostHand else g.guestHand
  }

  function WithHand(g: Game, s: Side, h: seq<Card>): (r: Game)
    ensures Hand(r, s) == h && Hand(r, Opp(s)) == Hand(g, Opp(s))
    ensures r.(hostHand := g.hostHand, guestHand := g.guestHand) == g
  {
    if s == Host then g.(hostHand := h) else g.(guestHand := h)
  }

  function SideCards(f: Flag, s: Side): seq<Card>
  {
    if s == Host then f.hostCards else f.guestCards
  }

  function WithSideCards(f: Flag, s: Side, cards: seq<Card>): (r: Flag)
    ensures SideCards(r, s) == cards && SideCards(r, Opp(s)) == SideCards(f, Opp(s))
    ensures r.owner == f.owner && r.proofClaim == f.proofClaim
  {
    if s == Host then f.(hostCards := cards) else f.(guestCards := cards)
  }

  // ---------------------------------------------------------------------
  // Formations

  /** The cards that count as number cards, in their order. */
  function NumberCards(cards: seq<Card>): (r: seq<Card>)
    ensures |r| <= |cards|
    ensures forall c :: c in r <==> c in cards && CountsAsNumber(c)
    ensures forall i | 0 <= i < |r| :: CountsAsNumber(r[i])
    ensures |r| == |cards| <==> forall i | 0 <= i < |cards| :: CountsAsNumber(cards[i])
    ensures |r| == |cards| ==> r == cards
  {
    if cards == [] then []
    else
      var rest := NumberCards(cards[1..]);
      if CountsAsNumber(cards[0]) then [cards[0]] + rest else rest
  }

  /** The value of each card, position by position. */
  function Values(cards: seq<Card>): (r: seq<int>)
    requires forall i | 0 <= i < |cards| :: CountsAsNumber(cards[i])
    ensures |r| == |cards|
    ensures forall i | 0 <= i < |cards| :: CountsAsNumber(cards[i]) && r[i] == cards[i].value
  {
    if cards == [] then []
    else
      assert CountsAsNumber(cards[0]);
      [cards[0].value] + Values(cards[1..])
  }

  /** The colour of each card, position by position. */
  function Colors(cards: seq<Card>): (r: seq<Color>)
    requires forall i | 0 <= i < |cards| :: CountsAsNumber(cards[i])
    ensures |r| == |cards|
    ensures forall i | 0 <= i < |cards| :: CountsAsNumber(cards[i]) && r[i] == cards[i].color
  {
    if cards == [] then []
    else
      assert CountsAsNumber(cards[0]);
      [cards[0].color] + Colors(cards[1..])
  }

  /** The three cards are all number cards. */
  predicate ValidTriple(cards: seq<Card>)
  {
    |cards| == 3 && CountsAsNumber(cards[0]) && CountsAsNumber(cards[1]) && CountsAsNumber(cards[2])
  }

  /** Tier and sum of a flag side. Anything but three number cards is
      tier 0 with sum 0; otherwise the tier is 1..5. The colours are taken
      in hand order rather than value order: the flush test compares every
      colour with the first, which does not depend on the order. */
  function EvaluateFormation(cards: seq<Card>): (r: Formation)
    ensures 0 <= r.tier <= Wedge
    ensures r.tier == 0 <==> !ValidTriple(cards)
    ensures r.tier == 0 ==> r == Formation(0, 0)
  {
    if |cards| != 3 then Formation(0, 0)
    else
      var numberCards := NumberCards(cards);
      if |numberCards| != 3 then Formation(0, 0)
      else
        var values := SortInts(Values(numberCards));
        var colors := Colors(numberCards);
        var sum := Sum(values);
        var isFlush := Uniform(colors);
        var isStraight := values[1] == values[0] + 1 && values[2] == values[1] + 1;
        var isThreeOfAKind := values[0] == values[1] && values[1] == values[2];
        if isFlush && isStraight then Formation(Wedge, sum)
        else if isThreeOfAKind then Formation(Phalanx, sum)
        else if isFlush then Formation(Battalion, sum)
        else if isStraight then Formation(Skirmish, sum)
        else Formation(HostFormation, sum)
  }

  /** On three number cards `evaluateFormation` gives the tier above and the
      sum of the three values. */
  lemma FormationOfThree(x: Card, y: Card, z: Card)
    requires CountsAsNumber(x) && CountsAsNumber(y) && CountsAsNumber(z)
    ensures EvaluateFormation([x, y, z]) == Formation(TierOf(x.color, y.color, z.color, x.value, y.value, z.value), x.value + y.value + z.value)
  {
    var cards := [x, y, z];
    assert NumberCards(cards) == cards;
    var values := SortInts(Values(cards));
    assert values == SortInts([x.value, y.value, z.value]) by {
      assert Values(cards) == [x.value, y.value, z.value];
    }
    assert Uniform(Colors(cards)) <==> x.color == y.color && y.color == z.color by {
      assert Colors(cards) == [x.color, y.color, z.color];
      UniformThree(x.color, y.color, z.color);
    }
    ThreeSorted(x.value, y.value, z.value);
  }

  /** The formation of a side does not depend on the order its cards were
      played in (the two transpositions generate every order). */
  lemma FormationIgnoresOrder(x: Card, y: Card, z: Card)
    ensures EvaluateFormation([x, y, z]) == EvaluateFormation([y, x, z])
    ensures EvaluateFormation([x, y, z]) == EvaluateFormation([x, z, y])
  {
    if CountsAsNumber(x) && CountsAsNumber(y) && CountsAsNumber(z) {
      FormationOfThree(x, y, z);
      FormationOfThree(y, x, z);
      FormationOfThree(x, z, y);
      TierOfSymmetric(x.color, y.color, z.color, x.value, y.value, z.value);
    }
  }

  // ---------------------------------------------------------------------
  // Win check

  function Owners(flags: seq<Flag>): (o: Owners)
    ensures |o| == |flags|
    ensures forall i | 0 <= i < |flags| :: o[i] == flags[i].owner
  {
    seq(|flags|, i requires 0 <= i < |flags| => flags[i].owner)
  }

  /** s holds the three flags ending at index i. */
  predicate RunEndsAt(o: Owners, s: Side, i: int)
  {
    2 <= i < |o| && RunAt(o, s, i - 2, 3)
  }

  /** The side whose first run of three adjacent flags ends earliest, reading
      from index i on; None if there is no such run. */
  function FirstRunFrom(o: Owners, i: nat): Option<Side>
    decreases |o| - i
  {
    if i >= |o| then None
    else if RunEndsAt(o, Host, i) then Some(Host)
    else if RunEndsAt(o, Guest, i) then Some(Guest)
    else FirstRunFrom(o, i + 1)
  }

  /** The game's winner as `checkWinner` decides it: the side that first
      completes three adjacent flags, otherwise a side with five flags (the
      host first), otherwise nobody. */
  function WinnerOf(o: Owners): Option<Side>
  {
    match FirstRunFrom(o, 0)
    case Some(s) => Some(s)
    case None =>
      if Count(o, Host) >= 5 then Some(Host)
      else if Count(o, Guest) >= 5 then Some(Guest)
      else None
  }

  /** The streak counters after reading index i detect exactly the runs
      ending at i. */
  lemma RunEndsAtTrailing(o: Owners, s: Side, i: nat)
    requires i < |o|
    ensures RunEndsAt(o, s, i) <==> Trailing(o[..i + 1], s) >= 3
  {
    if i >= 2 {
      TrailingAtLeast(o[..i + 1], s, 3);
      RunAtPrefix(o, s, i + 1, i - 2, 3);
    }
  }

  /** `checkWinner`: the loop over the flags with two counters and two
      streak counters, returning as soon as a streak reaches three. */
  method CheckWinner(flags: seq<Flag>) returns (w: Option<Side>)
    ensures w == WinnerOf(Owners(flags))
  {
    ghost var o := Owners(flags);
    var hostCount, guestCount := 0, 0;
    var hostConsecutive, guestConsecutive := 0, 0;
    var i := 0;
    while i < |flags|
      invariant 0 <= i <= |flags|
      invariant hostCount == Count(o[..i], Host) && guestCount == Count(o[..i], Guest)
      invariant hostConsecutive == Trailing(o[..i], Host)
      invariant guestConsecutive == Trailing(o[..i], Guest)
      invariant FirstRunFrom(o, 0) == FirstRunFrom(o, i)
    {
      if flags[i].owner == Some(Host) {
        hostCount := hostCount + 1;
        hostConsecutive := hostConsecutive + 1;
        guestConsecutive := 0;
      } else if flags[i].owner == Some(Guest) {
        guestCount := guestCount + 1;
        guestConsecutive := guestConsecutive + 1;
        hostConsecutive := 0;
      } else {
        hostConsecutive := 0;
        guestConsecutive := 0;
      }
      CountPrefixStep(o, Host, i);
      CountPrefixStep(o, Guest, i);
      TrailingStep(o, Host, i);
      TrailingStep(o, Guest, i);
      RunEndsAtTrailing(o, Host, i);
      RunEndsAtTrailing(o, Guest, i);
      if hostConsecutive >= 3 {
        return Some(Host);
      }
      if guestConsecutive >= 3 {
        return Some(Guest);
      }
      i := i + 1;
    }
    assert o[..i] == o;
    if hostCount >= 5 {
      return Some(Host);
    }
    if guestCount >= 5 {
      return Some(Guest);
    }
    return None;
  }

  /** A run of three is a run ending at its third flag. */
  lemma HasRunEndsAt(o: Owners, s: Side)
    ensures HasRun(o, s, 3) <==> exists j | 0 <= j < |o| :: RunEndsAt(o, s, j)
  {
    if HasRun(o, s, 3) {
      var h :| 0 <= h <= |o| && RunAt(o, s, h, 3);
      assert RunEndsAt(o, s, h + 2);
    }
  }

  /** The scan from i finds a side exactly when a run ends at some j >= i,
      and then it is the side of the earliest such run. */
  lemma {:induction false} FirstRunFromSpec(o: Owners, i: nat)
    ensures FirstRunFrom(o, i).None? <==>
      forall j | i <= j < |o| :: !RunEndsAt(o, Host, j) && !RunEndsAt(o, Guest, j)
    ensures FirstRunFrom(o, i).Some? ==>
      exists j | i <= j < |o| :: RunEndsAt(o, FirstRunFrom(o, i).value, j)
    decreases |o| - i
  {
    if i < |o| && !RunEndsAt(o, Host, i) && !RunEndsAt(o, Guest, i) {
      FirstRunFromSpec(o, i + 1);
    }
  }

  /** The side completing the earliest run of three wins, whatever the
      counts. */
  lemma {:induction false} EarliestRunWins(o: Owners, s: Side, j: nat)
    requires RunEndsAt(o, s, j)
    requires forall k | 0 <= k < j :: !RunEndsAt(o, Host, k) && !RunEndsAt(o, Guest, k)
    ensures WinnerOf(o) == Some(s)
  {
    var i := 0;
    while i < j
      invariant 0 <= i <= j
      invariant FirstRunFrom(o, 0) == FirstRunFrom(o, i)
    {
      i := i + 1;
    }
    assert o[j] == Some(s);
  }

  /** Without a run of three the counts decide: host with five or more, else
      guest with five or more, else nobody. */
  lemma WinnerByCount(o: Owners)
    requires !HasRun(o, Host, 3) && !HasRun(o, Guest, 3)
    ensures WinnerOf(o) ==
      if Count(o, Host) >= 5 then Some(Host)
      else if Count(o, Guest) >= 5 then Some(Guest)
      else None
  {
    HasRunEndsAt(o, Host);
    HasRunEndsAt(o, Guest);
    FirstRunFromSpec(o, 0);
  }

  /** A declared winner holds three adjacent flags or at least five flags. */
  lemma WinnerHasClaim(o: Owners, s: Side)
    requires WinnerOf(o) == Some(s)
    ensures HasRun(o, s, 3) || Count(o, s) >= 5
  {
    FirstRunFromSpec(o, 0);
    if FirstRunFrom(o, 0).Some? {
      var j :| 0 <= j < |o| && RunEndsAt(o, s, j);
      assert RunAt(o, s, j - 2, 3);
    }
  }

  /** `[host, host, host, null, guest x 5]`: the host's early run beats the
      guest's five flags and later run. */
  lemma EarlyRunBeatsFiveFlags()
    ensures WinnerOf([Some(Host), Some(Host), Some(Host), None,
                      Some(Guest), Some(Guest), Some(Guest), Some(Guest), Some(Guest)]) == Some(Host)
  {
    var o := [Some(Host), Some(Host), Some(Host), None,
              Some(Guest), Some(Guest), Some(Guest), Some(Guest), Some(Guest)];
    assert RunEndsAt(o, Host, 2);
    EarliestRunWins(o, Host, 2);
  }

  // ---------------------------------------------------------------------
  // Game state invariants

  function FlagCards(f: Flag): multiset<Card>
  {
    multiset(f.hostCards) + multiset(f.guestCards)
  }

  /** Every card committed to the board. */
  function BoardCards(flags: seq<Flag>): multiset<Card>
  {
    if flags == [] then multiset{} else FlagCards(flags[0]) + BoardCards(flags[1..])
  }

  /** Replacing one flag changes the board by that flag's cards only. */
  lemma {:induction false} BoardCardsUpdate(flags: seq<Flag>, i: nat, f: Flag)
    requires i < |flags|
    ensures BoardCards(flags[i := f]) + FlagCards(flags[i]) == BoardCards(flags) + FlagCards(f)
  {
    if i == 0 {
      assert flags[i := f][1..] == flags[1..];
    } else {
      var rest := flags[1..];
      BoardCardsUpdate(rest, i - 1, f);
      assert flags[i := f][1..] == rest[i - 1 := f];
      assert flags[i := f][0] == flags[0];
      assert rest[i - 1] == flags[i];
      MultisetShift(FlagCards(flags[0]), BoardCards(rest[i - 1 := f]), BoardCards(rest),
                    FlagCards(flags[i]), FlagCards(f));
    }
  }

  lemma MultisetShift(a: multiset<Card>, b': multiset<Card>, b: multiset<Card>, x: multiset<Card>, y: multiset<Card>)
    requires b' + x == b + y
    ensures a + b' + x == a + b + y
  {
    assert a + b' + x == a + (b' + x);
  }

  /** Flags holding the same cards make the same board. */
  lemma {:induction false} BoardCardsSameCards(flags: seq<Flag>, flags': seq<Flag>)
    requires |flags| == |flags'|
    requires forall i | 0 <= i < |flags| ::
      flags[i].hostCards == flags'[i].hostCards && flags[i].guestCards == flags'[i].guestCards
    ensures BoardCards(flags) == BoardCards(flags')
  {
    if flags != [] {
      BoardCardsSameCards(flags[1..], flags'[1..]);
    }
  }

  /** All cards of the game: both piles, both hands and the board. */
  function CardsIn(g: Game): multiset<Card>
  {
    multiset(g.deck) + multiset(g.tacticsDeck) + multiset(g.hostHand) + multiset(g.guestHand)
      + BoardCards(g.flags)
  }

  /** Nine flags, at most three cards per side on each. */
  predicate Valid(g: Game)
  {
    && |g.flags| == FlagsCount
    && forall i | 0 <= i < |g.flags| :: |g.flags[i].hostCards| <= 3 && |g.flags[i].guestCards| <= 3
  }

  // ---------------------------------------------------------------------
  // Playing a card

  /** Deciding a flag once both sides hold three cards: higher tier, then
      higher sum, and on an exact tie the side that did not move. The
      pending proof claim is dropped. */
  function Resolve(f: Flag, mover: Side): (r: Flag)
    ensures r.hostCards == f.hostCards && r.guestCards == f.guestCards
    ensures !(|f.hostCards| == 3 && |f.guestCards| == 3) ==> r == f
    ensures |f.hostCards| == 3 && |f.guestCards| == 3 ==>
      var h, v := EvaluateFormation(f.hostCards), EvaluateFormation(f.guestCards);
      && r.proofClaim == None && r.owner.Some?
      && (h.tier > v.tier ==> r.owner == Some(Host))
      && (v.tier > h.tier ==> r.owner == Some(Guest))
      && (h.tier == v.tier && h.sum > v.sum ==> r.owner == Some(Host))
      && (h.tier == v.tier && v.sum > h.sum ==> r.owner == Some(Guest))
      && (h == v ==> r.owner == Some(Opp(mover)))
  {
    if |f.hostCards| == 3 && |f.guestCards| == 3 then
      var h, v := EvaluateFormation(f.hostCards), EvaluateFormation(f.guestCards);
      f.(owner := Some(Contest((h.tier, h.sum), (v.tier, v.sum), mover)), proofClaim := None)
    else
      f
  }

  /** The guards of `playCard`: a host or guest, on their turn, who has not
      played yet this turn, at a flag nobody owns where they hold fewer than
      three cards. */
  predicate CanPlay(g: Game, p: Player, flagIndex: nat)
  {
    && p != Onlooker
    && g.turn == Role(p)
    && !g.hasPlayedCard
    && flagIndex < |g.flags|
    && g.flags[flagIndex].owner.None?
    && |SideCards(g.flags[flagIndex], Role(p))| < 3
  }

  /** The game after s moved card k of their hand to flag flagIndex: the card
      leaves that hand, joins s's side of that flag only, the flag is
      resolved, the turn is marked as played and the winner recomputed.
      Nothing is drawn. */
  predicate Committed(g: Game, g': Game, s: Side, k: nat, flagIndex: nat)
    requires k < |Hand(g, s)| && flagIndex < |g.flags|
  {
    var hand, flag := Hand(g, s), g.flags[flagIndex];
    && Hand(g', s) == hand[..k] + hand[k + 1..]
    && Hand(g', Opp(s)) == Hand(g, Opp(s))
    && g'.flags == g.flags[flagIndex := Resolve(WithSideCards(flag, s, SideCards(flag, s) + [hand[k]]), s)]
    && g'.deck == g.deck && g'.tacticsDeck == g.tacticsDeck
    && g'.turn == g.turn && g'.hasPlayedCard
    && g'.winner == WinnerOf(Owners(g'.flags))
  }

  /** `playCard`: the guards, then the move. Anything failing the guards
      (no selected card, an onlooker, not the player's turn, a card already
      played this turn, an owned flag, three cards there already) leaves the
      game as it is. */
  method PlayCard(g: Game, p: Player, selected: Option<nat>, flagIndex: nat) returns (g': Game)
    requires flagIndex < |g.flags|
    requires selected.Some? ==> selected.value < |Hand(g, Role(p))|
    ensures !(selected.Some? && CanPlay(g, p, flagIndex)) ==> g' == g
    ensures selected.Some? && CanPlay(g, p, flagIndex) ==>
      Committed(g, g', Role(p), selected.value, flagIndex)
    ensures CardsIn(g') == CardsIn(g)
    ensures Valid(g) ==> Valid(g')
  {
    if selected.None? || p == Onlooker {
      return g;
    }
    var s := Role(p);
    if g.turn != s || g.hasPlayedCard {
      return g;
    }
    var flag := g.flags[flagIndex];
    if flag.owner.Some? || |SideCards(flag, s)| >= 3 {
      return g;
    }
    g' := CommitCard(g, s, selected.value, flagIndex);
  }

  /** The body of `playCard` past its guards: splice the card out of the
      hand, append it to the flag, resolve, and write the update. */
  method CommitCard(g: Game, s: Side, k: nat, flagIndex: nat) returns (g': Game)
    requires k < |Hand(g, s)| && flagIndex < |g.flags|
    requires |SideCards(g.flags[flagIndex], s)| < 3
    ensures Committed(g, g', s, k, flagIndex)
    ensures CardsIn(g') == CardsIn(g)
    ensures Valid(g) ==> Valid(g')
  {
    var flag := g.flags[flagIndex];
    var hand := Hand(g, s);
    var cardToPlay := hand[k];
    hand := hand[..k] + hand[k + 1..];
    flag := WithSideCards(flag, s, SideCards(flag, s) + [cardToPlay]);
    flag := Resolve(flag, s);
    var newFlags := g.flags[flagIndex := flag];
    var winner := CheckWinner(newFlags);
    g' := WithHand(g.(flags := newFlags, hasPlayedCard := true, winner := winner), s, hand);
    MoveConserves(g, g', s, k, flagIndex);
  }

  /** Taking card k out of one hand and adding it to a flag keeps the cards
      of the game. */
  lemma MoveConserves(g: Game, g': Game, s: Side, k: nat, flagIndex: nat)
    requires k < |Hand(g, s)| && flagIndex < |g.flags|
    requires Hand(g', s) == Hand(g, s)[..k] + Hand(g, s)[k + 1..]
    requires Hand(g', Opp(s)) == Hand(g, Opp(s))
    requires g'.deck == g.deck && g'.tacticsDeck == g.tacticsDeck
    requires |g'.flags| == |g.flags| && g'.flags == g.flags[flagIndex := g'.flags[flagIndex]]
    requires FlagCards(g'.flags[flagIndex]) == FlagCards(g.flags[flagIndex]) + multiset{Hand(g, s)[k]}
    ensures CardsIn(g') == CardsIn(g)
  {
    var h := Hand(g, s);
    var c := h[k];
    RemoveAtMultiset(h, k);
    BoardCardsUpdate(g.flags, flagIndex, g'.flags[flagIndex]);
    MultisetCancel(BoardCards(g'.flags), BoardCards(g.flags), FlagCards(g.flags[flagIndex]), multiset{c});
    CardsInBySide(g, s);
    CardsInBySide(g', s);
    MultisetMove(multiset(g.deck) + multiset(g.tacticsDeck), multiset(h), multiset(Hand(g', s)),
                 multiset(Hand(g, Opp(s))), BoardCards(g.flags), BoardCards(g'.flags), multiset{c});
  }

  lemma RemoveAtMultiset<T>(h: seq<T>, k: nat)
    requires k < |h|
    ensures multiset(h[..k] + h[k + 1..]) + multiset{h[k]} == multiset(h)
  {
    assert h == h[..k] + [h[k]] + h[k + 1..];
  }

  lemma MultisetCancel(b': multiset<Card>, b: multiset<Card>, x: multiset<Card>, c: multiset<Card>)
    requires b' + x == b + (x + c)
    ensures b' == b + c
  {
    forall e
      ensures b'[e] == (b + c)[e]
    {
      assert (b' + x)[e] == (b + (x + c))[e];
    }
  }

  lemma MultisetMove(d: multiset<Card>, h: multiset<Card>, h': multiset<Card>, o: multiset<Card>,
                     b: multiset<Card>, b': multiset<Card>, c: multiset<Card>)
    requires h' + c == h && b' == b + c
    ensures d + h' + o + b' == d + h + o + b
  {
    assert d + h' + o + b' == d + (h' + c) + o + b;
  }

  /** The cards of the game, grouped by the mover's and the other hand. */
  lemma CardsInBySide(g: Game, s: Side)
    ensures CardsIn(g) == multiset(g.deck) + multiset(g.tacticsDeck) + multiset(Hand(g, s))
      + multiset(Hand(g, Opp(s))) + BoardCards(g.flags)
  {
    if s == Guest {
      var d, t, a, b := multiset(g.deck), multiset(g.tacticsDeck), multiset(g.hostHand), multiset(g.guestHand);
      assert d + t + a + b == d + t + b + a;
    }
  }

  // ---------------------------------------------------------------------
  // Ending the turn

  /** The flag update of `drawAndEndTurn`: the claims made by s are
      dropped, every other field and every other claim is kept. */
  function ClearClaimsOf(flags: seq<Flag>, s: Side): (r: seq<Flag>)
    ensures |r| == |flags|
    ensures forall i | 0 <= i < |flags| ::
      && r[i].hostCards == flags[i].hostCards && r[i].guestCards == flags[i].guestCards
      && r[i].owner == flags[i].owner
      && r[i].proofClaim == (if flags[i].proofClaim == Some(s) then None else flags[i].proofClaim)
  {
    if flags == [] then []
    else
      var f := flags[0];
      [if f.proofClaim == Some(s) then f.(proofClaim := None) else f] + ClearClaimsOf(flags[1..], s)
  }

  /** `drawAndEndTurn`: take the front card of the chosen pile, if it has
      one, onto the end of the player's hand; drop the player's own claims;
      hand the turn to the other seat and clear `hasPlayedCard`. Neither the
      turn nor `hasPlayedCard` is checked first. */
  method DrawAndEndTurn(g: Game, p: Player, choice: DeckChoice) returns (g': Game)
    ensures var s := Role(p);
      var pile := if choice == Normal then g.deck else g.tacticsDeck;
      && Hand(g', s) == Hand(g, s) + (if |pile| > 0 then [pile[0]] else [])
      && Hand(g', Opp(s)) == Hand(g, Opp(s))
      && g'.deck == (if choice == Normal && |g.deck| > 0 then g.deck[1..] else g.deck)
      && g'.tacticsDeck == (if choice == Tactics && |g.tacticsDeck| > 0 then g.tacticsDeck[1..] else g.tacticsDeck)
      && g'.flags == ClearClaimsOf(g.flags, s)
      && g'.turn == Opp(s) && !g'.hasPlayedCard && g'.winner == g.winner
    ensures CardsIn(g') == CardsIn(g)
    ensures Valid(g) ==> Valid(g')
  {
    var s := Role(p);
    var deck, tacticsDeck := g.deck, g.tacticsDeck;
    var drawnCard: Option<Card> := None;
    if choice == Normal {
      if |deck| > 0 {
        drawnCard := Some(deck[0]);
        deck := deck[1..];
      }
    } else {
      if |tacticsDeck| > 0 {
        drawnCard := Some(tacticsDeck[0]);
        tacticsDeck := tacticsDeck[1..];
      }
    }
    var hand := Hand(g, s);
    if drawnCard.Some? {
      hand := hand + [drawnCard.value];
    }
    var newFlags := ClearClaimsOf(g.flags, s);
    g' := WithHand(g.(deck := deck, tacticsDeck := tacticsDeck, flags := newFlags,
                      turn := Opp(s), hasPlayedCard := false), s, hand);
    BoardCardsSameCards(g.flags, newFlags);
    DrawConserves(g, g', s);
  }

  /** Moving the front card of a pile onto the end of a hand keeps the
      cards of the game. */
  lemma DrawConserves(g: Game, g': Game, s: Side)
    requires Hand(g', Opp(s)) == Hand(g, Opp(s))
    requires BoardCards(g'.flags) == BoardCards(g.flags)
    requires || (g'.deck == g.deck && g'.tacticsDeck == g.tacticsDeck && Hand(g', s) == Hand(g, s))
             || (|g.deck| > 0 && g'.deck == g.deck[1..] && g'.tacticsDeck == g.tacticsDeck
                 && Hand(g', s) == Hand(g, s) + [g.deck[0]])
             || (|g.tacticsDeck| > 0 && g'.tacticsDeck == g.tacticsDeck[1..] && g'.deck == g.deck
                 && Hand(g', s) == Hand(g, s) + [g.tacticsDeck[0]])
    ensures CardsIn(g') == CardsIn(g)
  {
    CardsInBySide(g, s);
    CardsInBySide(g', s);
    var o, b := multiset(Hand(g, Opp(s))), BoardCards(g.flags);
    var h, h' := multiset(Hand(g, s)), multiset(Hand(g', s));
    var d, d', t, t' := multiset(g.deck), multiset(g'.deck), multiset(g.tacticsDeck), multiset(g'.tacticsDeck);
    if |g.deck| > 0 && g'.deck == g.deck[1..] && g'.tacticsDeck == g.tacticsDeck
       && Hand(g', s) == Hand(g, s) + [g.deck[0]] {
      FrontToBack(g.deck, Hand(g, s));
      MultisetMoveFirst(d, d', t, h, h', o, b, multiset{g.deck[0]});
    } else if |g.tacticsDeck| > 0 && g'.tacticsDeck == g.tacticsDeck[1..] && g'.deck == g.deck
       && Hand(g', s) == Hand(g, s) + [g.tacticsDeck[0]] {
      FrontToBack(g.tacticsDeck, Hand(g, s));
      MultisetMoveFirst(t, t', d, h, h', o, b, multiset{g.tacticsDeck[0]});
    }
  }

  lemma FrontToBack(pile: seq<Card>, hand: seq<Card>)
    requires |pile| > 0
    ensures multiset(pile) == multiset{pile[0]} + multiset(pile[1..])
    ensures multiset(hand + [pile[0]]) == multiset(hand) + multiset{pile[0]}
  {
    assert pile == [pile[0]] + pile[1..];
  }

  lemma MultisetMoveFirst(p: multiset<Card>, p': multiset<Card>, q: multiset<Card>, h: multiset<Card>,
                          h': multiset<Card>, o: multiset<Card>, b: multiset<Card>, c: multiset<Card>)
    requires p == c + p' && h' == h + c
    ensures p' + q + h' + o + b == p + q + h + o + b
    ensures q + p' + h' + o + b == q + p + h + o + b
  {
    forall e
      ensures (p' + q + h' + o + b)[e] == (p + q + h + o + b)[e]
    {
    }
    forall e
      ensures (q + p' + h' + o + b)[e] == (q + p + h + o + b)[e]
    {
    }
  }

  // ---------------------------------------------------------------------
  // The claim protocol

  /** `claimFlag`: on the player's own turn, record a pending claim by them
      on the flag (replacing any claim there); otherwise nothing happens. */
  function ClaimFlag(g: Game, p: Player, flagIndex: nat): (r: Game)
    requires flagIndex < |g.flags|
    ensures g.turn != Role(p) ==> r == g
    ensures g.turn == Role(p) ==>
      && |r.flags| == |g.flags|
      && r.flags[flagIndex] == g.flags[flagIndex].(proofClaim := Some(Role(p)))
      && (forall i | 0 <= i < |g.flags| && i != flagIndex :: r.flags[i] == g.flags[i])
      && r.(flags := g.flags) == g
  {
    if g.turn != Role(p) then g
    else g.(flags := g.flags[flagIndex := g.flags[flagIndex].(proofClaim := Some(Role(p)))])
  }

  /** `cancelClaim` and `denyFlag`, which share one body: the flag's pending
      claim is dropped, whoever made it and whoever asks. */
  function WithdrawClaim(g: Game, flagIndex: nat): (r: Game)
    requires flagIndex < |g.flags|
    ensures |r.flags| == |g.flags|
    ensures r.flags[flagIndex] == g.flags[flagIndex].(proofClaim := None)
    ensures forall i | 0 <= i < |g.flags| && i != flagIndex :: r.flags[i] == g.flags[i]
    ensures r.(flags := g.flags) == g
  {
    g.(flags := g.flags[flagIndex := g.flags[flagIndex].(proofClaim := None)])
  }

  /** `concedeFlag`: with a pending claim, the claimant becomes the owner of
      the flag, the claim is dropped and the winner recomputed; without one,
      nothing happens. */
  function ConcedeFlag(g: Game, flagIndex: nat): (r: Game)
    requires flagIndex < |g.flags|
    ensures g.flags[flagIndex].proofClaim.None? ==> r == g
    ensures g.flags[flagIndex].proofClaim.Some? ==>
      && |r.flags| == |g.flags|
      && r.flags[flagIndex] == g.flags[flagIndex].(owner := g.flags[flagIndex].proofClaim, proofClaim := None)
      && (forall i | 0 <= i < |g.flags| && i != flagIndex :: r.flags[i] == g.flags[i])
      && r.winner == WinnerOf(Owners(r.flags))
      && r.(flags := g.flags, winner := g.winner) == g
  {
    var flag := g.flags[flagIndex];
    if flag.proofClaim.None? then g
    else
      var newFlags := g.flags[flagIndex := flag.(owner := flag.proofClaim, proofClaim := None)];
      g.(flags := newFlags, winner := WinnerOf(Owners(newFlags)))
  }

  /** A claim withdrawn before anything else happens leaves no trace. */
  lemma ClaimThenWithdraw(g: Game, p: Player, flagIndex: nat)
    requires flagIndex < |g.flags| && g.flags[flagIndex].proofClaim.None?
    ensures WithdrawClaim(ClaimFlag(g, p, flagIndex), flagIndex) == g
  {
    if g.turn == Role(p) {
      var r := WithdrawClaim(ClaimFlag(g, p, flagIndex), flagIndex);
      assert r.flags == g.flags;
    }
  }

  /** A claim made on the player's turn and conceded gives them the flag. */
  lemma ClaimThenConcede(g: Game, p: Player, flagIndex: nat)
    requires flagIndex < |g.flags| && g.turn == Role(p)
    ensures var r := ConcedeFlag(ClaimFlag(g, p, flagIndex), flagIndex);
      && r.flags[flagIndex].owner == Some(Role(p))
      && r.flags[flagIndex].proofClaim.None?
      && r.winner == WinnerOf(Owners(r.flags))
  {
  }

  /** Claims only move ownership: the cards of the game stay, and so does
      the shape of the board. */
  lemma ClaimKeepsCards(g: Game, p: Player, flagIndex: nat)
    requires flagIndex < |g.flags|
    ensures CardsIn(ClaimFlag(g, p, flagIndex)) == CardsIn(g)
    ensures Valid(g) ==> Valid(ClaimFlag(g, p, flagIndex))
  {
    BoardCardsSameCards(g.flags, ClaimFlag(g, p, flagIndex).flags);
  }

  lemma WithdrawKeepsCards(g: Game, flagIndex: nat)
    requires flagIndex < |g.flags|
    ensures CardsIn(WithdrawClaim(g, flagIndex)) == CardsIn(g)
    ensures Valid(g) ==> Valid(WithdrawClaim(g, flagIndex))
  {
    BoardCardsSameCards(g.flags, WithdrawClaim(g, flagIndex).flags);
  }

  lemma ConcedeKeepsCards(g: Game, flagIndex: nat)
    requires flagIndex < |g.flags|
    ensures CardsIn(ConcedeFlag(g, flagIndex)) == CardsIn(g)
    ensures Valid(g) ==> Valid(ConcedeFlag(g, flagIndex))
  {
    var r := ConcedeFlag(g, flagIndex);
    if g.flags[flagIndex].proofClaim.Some? {
      BoardCardsSameCards(g.flags, r.flags);
      assert r.deck == g.deck && r.tacticsDeck == g.tacticsDeck && r.hostHand == g.hostHand && r.guestHand == g.guestHand;
    }
  }

  // ---------------------------------------------------------------------
  // Setting up a game

  /** The 60 number cards in the order the nested COLORS x VALUES loops
      push them. */
  function OrderedDeck(): (d: seq<Card>)
    ensures |d| == 60
    ensures forall k | 0 <= k < 60 :: d[k] == NumberCard(DeckColor(k), DeckValue(k))
  {
    seq(60, k requires 0 <= k < 60 => NumberCard(DeckColor(k), DeckValue(k)))
  }

  /** The deck holds number cards only, valued 1..10, with every colour and
      value exactly once. */
  lemma OrderedDeckComposition()
    ensures forall k | 0 <= k < 60 ::
      OrderedDeck()[k].NumberCard? && MinValue <= OrderedDeck()[k].value <= MaxValue
    ensures forall c: Color, v | MinValue <= v <= MaxValue :: NumberCard(c, v) in OrderedDeck()
    ensures forall i, j | 0 <= i < j < 60 :: OrderedDeck()[i] != OrderedDeck()[j]
  {
    var d := OrderedDeck();
    forall c: Color, v | MinValue <= v <= MaxValue
      ensures NumberCard(c, v) in d
    {
      assert d[DeckIndex(c, v)] == NumberCard(c, v);
    }
    forall i, j | 0 <= i < j < 60
      ensures d[i] != d[j]
    {
      if d[i] == d[j] {
        DeckEnumerationInjective(i, j);
      }
    }
  }

  /** The six tactics cards in catalogue order (their descriptions are not
      modelled). */
  const TacticsCatalog: seq<Card> := [
    TacticsCard("t-morale-1", Morale, "Alexander"),
    TacticsCard("t-env-1", Environment, "Fog"),
    TacticsCard("t-guile-1", Guile, "Traitor"),
    TacticsCard("t-morale-2", Morale, "Darius"),
    TacticsCard("t-env-2", Environment, "Mud"),
    TacticsCard("t-guile-2", Guile, "Scout")
  ]

  /** `createDeck`: push the 60 cards colour by colour, then shuffle them in
      place; picks[i] stands for the random index drawn at step i. */
  method CreateDeck(picks: seq<nat>) returns (deck: seq<Card>)
    requires ValidPicks(picks, 60)
    ensures deck == Shuffled(OrderedDeck(), picks)
    ensures multiset(deck) == multiset(OrderedDeck())
  {
    var pushed: seq<Card> := [];
    var ci := 0;
    while ci < |Palette|
      invariant 0 <= ci <= |Palette|
      invariant pushed == OrderedDeck()[..10 * ci]
    {
      var v := MinValue;
      while v <= MaxValue
        invariant MinValue <= v <= MaxValue + 1
        invariant pushed == OrderedDeck()[..10 * ci + v - 1]
      {
        DeckPosition(ci, v);
        pushed := pushed + [NumberCard(Palette[ci], v)];
        v := v + 1;
      }
      ci := ci + 1;
    }
    assert pushed == OrderedDeck();
    var a := new Card[|pushed|](k requires 0 <= k < |pushed| => pushed[k]);
    assert a[..] == pushed;
    ShuffleInPlace(a, picks);
    deck := a[..];
  }

  /** `createTacticsDeck`: the catalogue, shuffled in place. */
  method CreateTacticsDeck(picks: seq<nat>) returns (deck: seq<Card>)
    requires ValidPicks(picks, |TacticsCatalog|)
    ensures deck == Shuffled(TacticsCatalog, picks)
    ensures multiset(deck) == multiset(TacticsCatalog)
  {
    var a := new Card[|TacticsCatalog|](k requires 0 <= k < |TacticsCatalog| => TacticsCatalog[k]);
    assert a[..] == TacticsCatalog;
    ShuffleInPlace(a, picks);
    deck := a[..];
  }

  lemma {:induction false} BoardCardsEmpty(flags: seq<Flag>)
    requires forall i | 0 <= i < |flags| :: flags[i].hostCards == [] && flags[i].guestCards == []
    ensures BoardCards(flags) == multiset{}
  {
    if flags != [] {
      BoardCardsEmpty(flags[1..]);
    }
  }

  /** The game-state part of `createGame`: two shuffled piles, seven cards
      dealt to the host and then seven to the guest from the front of the
      number deck, nine empty flags, and the host to move. */
  method CreateGame(deckPicks: seq<nat>, tacticsPicks: seq<nat>) returns (g: Game)
    requires ValidPicks(deckPicks, 60) && ValidPicks(tacticsPicks, |TacticsCatalog|)
    ensures var d := Shuffled(OrderedDeck(), deckPicks);
      && g.hostHand == d[..HandSize] && g.guestHand == d[HandSize..2 * HandSize]
      && g.deck == d[2 * HandSize..]
    ensures g.tacticsDeck == Shuffled(TacticsCatalog, tacticsPicks)
    ensures |g.hostHand| == HandSize && |g.guestHand| == HandSize && |g.deck| == 60 - 2 * HandSize
    ensures g.flags == seq(FlagsCount, _ => EmptyFlag)
    ensures g.turn == Host && !g.hasPlayedCard && g.winner.None?
    ensures CardsIn(g) == multiset(OrderedDeck()) + multiset(TacticsCatalog)
    ensures Valid(g)
  {
    var newDeck := CreateDeck(deckPicks);
    var tacticsDeck := CreateTacticsDeck(tacticsPicks);
    ghost var full := newDeck;
    var hostHand := newDeck[..HandSize];
    newDeck := newDeck[HandSize..];
    var guestHand := newDeck[..HandSize];
    newDeck := newDeck[HandSize..];
    var flags := seq(FlagsCount, _ => EmptyFlag);
    g := Game(Host, false, None, newDeck, tacticsDeck, hostHand, guestHand, flags);
    assert full == hostHand + guestHand + newDeck;
    BoardCardsEmpty(flags);
    DealConserves(full, hostHand, guestHand, newDeck, multiset(tacticsDeck));
  }

  lemma DealConserves(full: seq<Card>, a: seq<Card>, b: seq<Card>, rest: seq<Card>, t: multiset<Card>)
    requires full == a + b + rest
    ensures multiset(rest) + t + multiset(a) + multiset(b) + multiset{} == multiset(full) + t
  {
    assert multiset(full) == multiset(a) + multiset(b) + multiset(rest);
    forall e
      ensures (multiset(rest) + t + multiset(a) + multiset(b) + multiset{})[e] == (multiset(full) + t)[e]
    {
    }
  }
}
