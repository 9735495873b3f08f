/** Vocabulary shared by both iterations of the Battle Line engine: the two
    seats, the six colours, the standard 60-card enumeration (colour-major,
    values 1..10), the five formation tiers, and the rule that decides a flag
    once both sides have committed three cards. */
module Common {
  import opened Sorting

  datatype Option<T> = None | Some(value: T)

  /** The two seats: 'host' created the game, 'guest' joined it. */
  datatype Side = Host | Guest

  /** The other seat. */
  function Opp(s: Side): (o: Side)
    ensures o != s
  {
    if s == Host then Guest else Host
  }

  datatype Color = Red | Orange | Yellow | Green | Blue | Purple

  /** The palette in the order the deck is built (COLORS). */
  const Palette: seq<Color> := [Red, Orange, Yellow, Green, Blue, Purple]

  /** The lowest and highest value of a number card (VALUES / NUMBERS). */
  const MinValue := 1
  const MaxValue := 10

  /** Formation tiers, strongest first. */
  const Wedge := 5          // straight flush
  const Phalanx := 4        // three of a kind
  const Battalion := 3      // flush
  const Skirmish := 2       // straight
  const HostFormation := 1  // anything else: a plain sum contest

  /** The tier of three number cards read off their colours and values: a
      straight is three distinct values spanning three, a flush is a single
      colour, and the stronger pattern wins. Both evaluators agree with it. */
  function TierOf(c1: Color, c2: Color, c3: Color, v1: int, v2: int, v3: int): (t: int)
    ensures HostFormation <= t <= Wedge
  {
    var flush := c1 == c2 && c2 == c3;
    var straight := Consecutive(v1, v2, v3);
    if flush && straight then Wedge
    else if v1 == v2 && v2 == v3 then Phalanx
    else if flush then Battalion
    else if straight then Skirmish
    else HostFormation
  }

  /** The tier does not depend on the order of the three cards. */
  lemma TierOfSymmetric(c1: Color, c2: Color, c3: Color, v1: int, v2: int, v3: int)
    ensures TierOf(c1, c2, c3, v1, v2, v3) == TierOf(c2, c1, c3, v2, v1, v3)
    ensures TierOf(c1, c2, c3, v1, v2, v3) == TierOf(c1, c3, c2, v1, v3, v2)
  {
    ConsecutiveSymmetric(v1, v2, v3);
  }

  /** Position of a colour in the palette. */
  function ColorIndex(c: Color): (i: nat)
    ensures i < |Palette| && Palette[i] == c
  {
    match c
    case Red => 0
    case Orange => 1
    case Yellow => 2
    case Green => 3
    case Blue => 4
    case Purple => 5
  }

  lemma PaletteInjective(i: nat, j: nat)
    requires i < |Palette| && j < |Palette|
    ensures Palette[i] == Palette[j] <==> i == j
  {
  }

  /** The k-th card pushed by the nested COLORS x VALUES loops. */
  function DeckColor(k: nat): Color
    requires k < 60
  {
    Palette[k / 10]
  }

  function DeckValue(k: nat): int
    requires k < 60
  {
    k % 10 + 1
  }

  /** Where the card of colour c and value v sits in that enumeration. */
  function DeckIndex(c: Color, v: int): (k: nat)
    requires MinValue <= v <= MaxValue
    ensures k < 60 && DeckColor(k) == c && DeckValue(k) == v
  {
    ColorIndex(c) * 10 + v - 1
  }

  /** The value loop for colour ci pushes its value v at position 10ci+v-1. */
  lemma DeckPosition(ci: nat, v: int)
    requires ci < |Palette| && MinValue <= v <= MaxValue
    ensures 10 * ci + v - 1 < 60
    ensures DeckColor(10 * ci + v - 1) == Palette[ci] && DeckValue(10 * ci + v - 1) == v
  {
    assert (10 * ci + v - 1) / 10 == ci;
    assert (10 * ci + v - 1) % 10 == v - 1;
  }

  /** Every (colour, value) pair occurs at exactly one position. */
  lemma DeckEnumerationInjective(i: nat, j: nat)
    requires i < 60 && j < 60
    requires DeckColor(i) == DeckColor(j) && DeckValue(i) == DeckValue(j)
    ensures i == j
  {
    PaletteInjective(i / 10, j / 10);
  }

  /** Every entry equals the first. */
  predicate Uniform<T(==)>(xs: seq<T>)
  {
    forall i | 0 <= i < |xs| :: xs[i] == xs[0]
  }

  /** The flush test on three colours: all equal to the first. */
  lemma UniformThree(a: Color, b: Color, c: Color)
    ensures Uniform([a, b, c]) <==> a == b && b == c
  {
    var xs := [a, b, c];
    if Uniform(xs) {
      assert xs[1] == xs[0] && xs[2] == xs[0];
    }
  }

  /** Lexicographic order on (formation, tie-break) keys. */
  predicate Outranks(a: (int, int), b: (int, int))
  {
    a.0 > b.0 || (a.0 == b.0 && a.1 > b.1)
  }

  /** Who takes a flag once both sides hold three cards: the side whose key
      is lexicographically greater; on an exact tie the side that did NOT
      make the completing move. */
  function Contest(host: (int, int), guest: (int, int), mover: Side): (w: Side)
    ensures Outranks(host, guest) ==> w == Host
    ensures Outranks(guest, host) ==> w == Guest
    ensures host == guest ==> w == Opp(mover)
  {
    if host.0 > guest.0 then Host
    else if guest.0 > host.0 then Guest
    else if host.1 > guest.1 then Host
    else if guest.1 > host.1 then Guest
    else Opp(mover)
  }

  /** Swapping the two seats (and the mover) swaps the winner. */
  lemma ContestSymmetric(host: (int, int), guest: (int, int), mover: Side)
    ensures Contest(guest, host, Opp(mover)) == Opp(Contest(host, guest, mover))
  {
  }
}
