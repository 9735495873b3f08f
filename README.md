# Battle Line engine, two versions

A model of the game engine of a two-player online Battle Line card game (six
colours of cards valued 1–10, nine flags, seven-card hands). The repository
carries two versions of the engine:

- **Version 1** (`src/App.jsx`, module `BattleLine`): a 60-card number deck and a
  separate tactics deck; a three-card formation is ranked Wedge > Phalanx >
  Battalion > Skirmish > Host, ties broken by the sum and then against the
  player who completed the flag; a player plays a card, may claim a flag (the
  opponent concedes it or the claim is withdrawn), then draws from either deck
  to end the turn; `checkWinner` scans the flags left to right and announces
  the first side to hold three adjacent flags, else a side holding five.
- **Version 2** (`src/App./App.jsx`, module `BattleLineTactics`): one 63-card deck
  (the 60 number cards plus three leaders, Alexander, Darius and Hector, that
  stand for any card); formations carry a score (the sum, the common value for
  a Phalanx); the best formation of a hand with leaders is found by trying
  every standard card in their place; playing a card resolves a full slot,
  removes the card from the hand, draws, and re-tallies the board, the host's
  claim being checked before the guest's, with a finish by flag count once deck
  and hand are empty.

Shared pieces live in their own modules: `Common` (sides, colours, tiers, the
index arithmetic of the ordered number deck, the contest between two
formations), `Sorting` (the numeric sort and sum applied to three card
values), `Runs` (counts and runs of adjacent flags in a row of owners, and the
state of a left-to-right scan), `Shuffle` (the in-place Fisher–Yates shuffle
with the random draws supplied as a sequence `picks`, `picks[i]` being the
index drawn at step `i`). `Variants` compares the two win checks.

Game states are values; each action returns the new state that the source
writes to its database. Player identity is reduced to the side the player
acts for.

## Model

| member | source | states |
|---|---|---|
| Common.Opp | src/App.jsx:609 | the other side is never the same side |
| Common.TierOf | src/App.jsx:117-125 | the tier of three values and colours is between Host (1) and Wedge (5) |
| Common.TierOfSymmetric | src/App.jsx:112-125 | swapping two cards (colour with value) leaves the tier unchanged |
| Common.ColorIndex | src/App.jsx:63 | every colour has a position in the six-colour palette |
| Common.PaletteInjective | src/App.jsx:63 | the six palette entries are pairwise distinct |
| Common.DeckIndex | src/App.jsx:69-75 | each colour and value 1..10 has a position below 60 in the ordered deck, holding that colour and value |
| Common.DeckPosition | src/App.jsx:71-74 | the push for palette colour `ci` and value `v` lands at position 10·ci+v−1, which holds that colour and value |
| Common.DeckEnumerationInjective | src/App.jsx:71-74 | two positions of the ordered deck with the same colour and value are the same position |
| Common.UniformThree | src/App.jsx:117 | the flush test (every colour equal to the first) holds exactly when the three colours are equal |
| Common.Contest | src/App.jsx:541-548 | the higher tier wins, then the higher sum; a complete tie goes to the side that did not complete the flag |
| Common.ContestSymmetric | src/App.jsx:541-548 | exchanging the two sides and the mover exchanges the winner |
| Sorting.Insert | src/App.jsx:112 | inserting into a sorted list keeps it sorted and adds one element |
| Sorting.InsertPermutes | src/App.jsx:112 | insertion adds exactly one occurrence of the value |
| Sorting.SortInts | src/App.jsx:112 | the ascending numeric sort returns a sorted list of the same length |
| Sorting.SortIntsPermutes | src/App.jsx:112 | the sort is a permutation of its input |
| Sorting.ConsecutiveSymmetric | src/App.jsx:118 | being a straight does not depend on the order of the three values |
| Sorting.ThreeSorted | src/App.jsx:112-119 | sorting three values gives minimum first and maximum last, the sum is preserved, the unit-step test holds exactly for distinct values spanning three, and the all-equal test holds exactly when the three are equal |
| Sorting.SortThree | src/App.jsx:112 | the sort of three values equals their explicit ordering |
| Sorting.Ordered3Ends | src/App.jsx:112-113 | the ordering of three values is sorted with minimum, middle, maximum |
| Sorting.ThreeValuesFacts | src/App.jsx:118-119 | the straight and three-of-a-kind tests on the sorted values are the order-free tests |
| Sorting.SumThree | src/App.jsx:115 | the `reduce` sum of three values is their sum |
| Runs.Count | src/App.jsx:129-146 | the number of flags a side holds is at most the number of flags |
| Runs.CountPrefixStep | src/App.jsx:135-141 | reading one more flag adds one to the count exactly when the side holds it |
| Runs.HasRunMonotone | src/App.jsx:148-149 | a run of k adjacent flags contains a run of every shorter length |
| Runs.LongestRunAtLeast | src/App./App.jsx:413-416 | with a longest run m, a run of length k exists exactly when k ≤ m |
| Runs.RunAtPrefix | src/App.jsx:134 | a run inside a prefix of the row is a run of the whole row, and back |
| Runs.Trailing | src/App.jsx:131-146 | the streak counter is the length of a run ending at the last flag read, not extendable to the left |
| Runs.TrailingStep | src/App.jsx:135-146 | the streak grows by one when the side holds the flag read, and resets to zero otherwise |
| Runs.TrailingAtLeast | src/App.jsx:148-149 | the streak is at least k exactly when the last k flags read belong to the side |
| Runs.LongestRunStep | src/App./App.jsx:406-407 | `Math.max` of the longest run and the new streak is the longest run of the longer prefix |
| Runs.StepKeepsRun | src/App./App.jsx:406-407 | the maximum after a step is attained by a run of the longer prefix |
| Runs.StepAddsNoLongerRun | src/App./App.jsx:406-407 | no run of the longer prefix exceeds the maximum after a step |
| Runs.ScanStart | src/App./App.jsx:386-391 | the counters start at zero as the summary of the empty prefix |
| Runs.ScanStep | src/App./App.jsx:393-408 | advancing the counters by one owner takes the summary of i flags to the summary of i+1 flags |
| Shuffle.Swap | src/App.jsx:78 | swapping two entries keeps the length |
| Shuffle.SwapPermutes | src/App.jsx:78 | swapping two entries is a permutation |
| Shuffle.ShuffledFrom | src/App.jsx:76-79 | running the remaining shuffle steps keeps the length |
| Shuffle.ShuffledFromPermutes | src/App.jsx:76-79 | the remaining shuffle steps only rearrange |
| Shuffle.Shuffled | src/App.jsx:76-79 | the shuffled deck has the same length and the same cards |
| Shuffle.ShuffleInPlace | src/App.jsx:76-79 | the array ends as the shuffle of its old contents under the given draws |
| Shuffle.ShuffledFromStep | src/App.jsx:77-78 | one loop iteration is one swap followed by the remaining steps |
| Shuffle.SwapEntries | src/App.jsx:78 | the destructuring assignment swaps the two entries and nothing else |
| BattleLine.Role | src/App.jsx:517-519 | a player acts for the host exactly when they are the host |
| BattleLine.WithHand | src/App.jsx:524-526 | replacing one side's hand leaves the other hand and every other field of the game unchanged |
| BattleLine.WithSideCards | src/App.jsx:525-532 | replacing one side's cards at a flag leaves the other side's cards, the owner and the claim unchanged |
| BattleLine.NumberCards | src/App.jsx:109 | the filter keeps exactly the input's number (or untyped) cards, and keeps them all, unchanged, exactly when all are number cards |
| BattleLine.Values | src/App.jsx:113 | entry i is the value of card i |
| BattleLine.Colors | src/App.jsx:114 | entry i is the colour of card i |
| BattleLine.EvaluateFormation | src/App.jsx:102-126 | the tier is in 0..5, and it is 0, with sum 0, exactly when the flag side is not three number cards |
| BattleLine.FormationOfThree | src/App.jsx:112-125 | three number cards get the tier `TierOf` of their colours and values and the sum of their values |
| BattleLine.FormationIgnoresOrder | src/App.jsx:112-125 | the evaluation does not depend on the order the cards were played |
| BattleLine.Owners | src/App.jsx:135-139 | the row of owners read by the win check, one per flag |
| BattleLine.RunEndsAtTrailing | src/App.jsx:148-149 | a streak counter reaches three at flag i exactly when the side holds flags i−2..i |
| BattleLine.CheckWinner | src/App.jsx:128-156 | the loop's answer is the side of the first run of three in flag order, else a side with five flags (host first), else none |
| BattleLine.HasRunEndsAt | src/App.jsx:148-149 | a side holds three adjacent flags exactly when such a run ends at some flag |
| BattleLine.FirstRunFromSpec | src/App.jsx:134-150 | the scan finds nothing exactly when no run of three ends at or after the start, and what it finds is a side whose run ends there |
| BattleLine.EarliestRunWins | src/App.jsx:134-150 | the side completing the earliest run of three wins, whatever the counts |
| BattleLine.WinnerByCount | src/App.jsx:152-155 | without any run of three, the host wins with five flags, else the guest with five, else nobody |
| BattleLine.WinnerHasClaim | src/App.jsx:128-156 | a declared winner holds three adjacent flags or at least five flags |
| BattleLine.EarlyRunBeatsFiveFlags | src/App.jsx:148-153 | the host's run of three on flags 1–3 beats the guest's five flags |
| BattleLine.BoardCardsUpdate | src/App.jsx:553 | replacing one flag changes the cards on the board by exactly that flag's difference |
| BattleLine.BoardCardsSameCards | src/App.jsx:601-606 | a board whose flags keep their cards keeps its cards |
| BattleLine.Resolve | src/App.jsx:537-551 | a flag with three cards on both sides gets an owner by tier, then sum, the tie going against the mover, and its claim is cleared; any other flag is unchanged |
| BattleLine.PlayCard | src/App.jsx:515-565 | without a selection, on another side's turn, after a card was played, on an owned flag or a full side nothing changes; otherwise the card moves from hand to flag, the flag is resolved, the winner is recomputed and the turn is marked as played; cards are conserved and the state invariant kept |
| BattleLine.CommitCard | src/App.jsx:522-563 | the committed move as above, conserving cards and the invariant |
| BattleLine.MoveConserves | src/App.jsx:531-532 | moving one card from a hand to a flag keeps the cards in play |
| BattleLine.CardsInBySide | src/App.jsx:459-472 | the cards in play are the two decks, both hands and the board, whichever side is named first |
| BattleLine.ClearClaimsOf | src/App.jsx:601-606 | the flags keep their cards and owners, and only the mover's claims are cleared |
| BattleLine.DrawAndEndTurn | src/App.jsx:568-615 | the front card of the chosen deck (if any) goes to the mover's hand, the mover's claims are dropped, the turn passes and the played mark is reset; cards are conserved and the invariant kept |
| BattleLine.DrawConserves | src/App.jsx:579-598 | drawing the front card of either deck, or nothing, keeps the cards in play |
| BattleLine.ClaimFlag | src/App.jsx:619-631 | on the player's turn the flag gets the player's claim and nothing else changes; otherwise nothing changes |
| BattleLine.WithdrawClaim | src/App.jsx:633-647 | cancelling or denying clears the flag's claim and nothing else |
| BattleLine.ConcedeFlag | src/App.jsx:649-665 | a claimed flag goes to the claimant, the claim is cleared and the winner recomputed; an unclaimed flag leaves the game unchanged |
| BattleLine.ClaimThenWithdraw | src/App.jsx:619-647 | claiming an unclaimed flag and withdrawing the claim restores the game |
| BattleLine.ClaimThenConcede | src/App.jsx:619-665 | claiming and then conceding gives the flag to the claimant and recomputes the winner |
| BattleLine.ClaimKeepsCards | src/App.jsx:619-631 | a claim moves no card and keeps the invariant |
| BattleLine.WithdrawKeepsCards | src/App.jsx:633-647 | withdrawing moves no card and keeps the invariant |
| BattleLine.ConcedeKeepsCards | src/App.jsx:649-665 | conceding moves no card and keeps the invariant |
| BattleLine.OrderedDeck | src/App.jsx:69-75 | the deck before shuffling, colour by colour and value by value |
| BattleLine.OrderedDeckComposition | src/App.jsx:63-75 | the ordered deck holds each colour and value 1..10 exactly once and nothing else |
| BattleLine.CreateDeck | src/App.jsx:69-81 | the push loops followed by the shuffle give the shuffle of the ordered deck, a permutation of it |
| BattleLine.CreateTacticsDeck | src/App.jsx:84-100 | the six tactics cards shuffled, a permutation of the catalogue |
| BattleLine.BoardCardsEmpty | src/App.jsx:454-456 | nine empty flags hold no card |
| BattleLine.CreateGame | src/App.jsx:446-476 | seven cards to each hand from the front of the shuffled deck, the rest left as the deck, nine empty flags, the host to move; every card of both decks is in play once and the invariant holds |
| BattleLine.DealConserves | src/App.jsx:451-452 | dealing two hands from the front of the deck keeps every card |
| BattleLineTactics.Numbers | src/App./App.jsx:90 | entry i is the number of card i |
| BattleLineTactics.Colors | src/App./App.jsx:91 | entry i is the colour of card i |
| BattleLineTactics.EvaluateConcreteFormation | src/App./App.jsx:89-104 | three number cards get a formation between Host and Wedge |
| BattleLineTactics.ConcreteOfThree | src/App./App.jsx:89-104 | the formation is `TierOf` of colours and numbers, the score is the common number for a Phalanx and the sum otherwise |
| BattleLineTactics.ConcreteIgnoresOrder | src/App./App.jsx:89-104 | the evaluation does not depend on the order of the three cards |
| BattleLineTactics.WedgeBound | src/App./App.jsx:150-152 | a Wedge containing number n scores its sum, at most the best straight through n |
| BattleLineTactics.FoldBestStep | src/App./App.jsx:125-133 | one more candidate updates the running best by `updateBest` |
| BattleLineTactics.FoldBestAppend | src/App./App.jsx:154-160 | folding two lists of candidates one after the other is folding their concatenation |
| BattleLineTactics.FoldBestIsFirstBest | src/App./App.jsx:122-133 | the result of the updates is the first candidate not beaten by any other (higher formation, then higher score) |
| BattleLineTactics.FirstBestExtend | src/App./App.jsx:125-133 | the strict comparisons keep the earlier best unless the new candidate beats it |
| BattleLineTactics.WildIndicesFrom | src/App./App.jsx:110 | the positions of leaders from i on, increasing, and all of them |
| BattleLineTactics.WildIndices | src/App./App.jsx:110 | the positions of all leaders in increasing order |
| BattleLineTactics.StandardCards | src/App./App.jsx:119-120 | sixty number cards |
| BattleLineTactics.StandardCardsComplete | src/App./App.jsx:119-120 | each colour and number 1..10 sits at its ordered-deck position among the standard cards |
| BattleLineTactics.Cands1 | src/App./App.jsx:140-143 | the sixty evaluations with the leader replaced by each standard card in turn |
| BattleLineTactics.Cands2 | src/App./App.jsx:154-160 | the 3600 evaluations with both leaders replaced, the first leader in the outer loop |
| BattleLineTactics.Cands2At | src/App./App.jsx:154-158 | the candidate at 60·a+b replaces the first leader by standard card a and the second by b |
| BattleLineTactics.PushStandardCards | src/App./App.jsx:119-120 | the nested pushes build the standard cards in colour-then-number order |
| BattleLineTactics.EvaluateBestFormation | src/App./App.jsx:107-169 | the search returns the best formation: (0,0,0) for a hand that is not three cards, the concrete evaluation without leaders, the first best substitution for one or two leaders, and (Wedge,30,30) for three |
| BattleLineTactics.SearchOneWild | src/App./App.jsx:135-143 | the loop over standard cards returns the fold of `updateBest` over all sixty substitutions |
| BattleLineTactics.SearchTwoWilds | src/App./App.jsx:144-160 | the double loop returns the fold of `updateBest` over all 3600 substitutions |
| BattleLineTactics.Row | src/App./App.jsx:156-159 | sixty candidates of one outer iteration |
| BattleLineTactics.Cands2Row | src/App./App.jsx:154-160 | the candidates after a+1 outer iterations are those after a followed by row a |
| BattleLineTactics.SearchSecondWild | src/App./App.jsx:156-159 | the inner loop folds row a into the running best and keeps the non-leader card in place |
| BattleLineTactics.StandardCardAt | src/App./App.jsx:120 | the standard card at position k is the ordered-deck card k, with a number in 1..10 |
| BattleLineTactics.WildPositions | src/App./App.jsx:110-116 | with no leader the hand is all number cards; with one or two, the recorded positions are the leaders and the rest are number cards |
| BattleLineTactics.OneWildAttained | src/App./App.jsx:135-143 | the result of the one-leader search is the first best substitution |
| BattleLineTactics.OneWildMaximal | src/App./App.jsx:135-143 | no colour and number in place of the leader beats the result |
| BattleLineTactics.TwoWildAttained | src/App./App.jsx:144-160 | the result of the two-leader search is the first best pair of substitutions |
| BattleLineTactics.TwoWildMaximal | src/App./App.jsx:144-160 | no pair of colours and numbers in place of the leaders beats the result |
| BattleLineTactics.TwoWildMaximalAt | src/App./App.jsx:144-160 | one given pair of number cards does not beat the result |
| BattleLineTactics.Cands2Index | src/App./App.jsx:154-158 | each of the 3600 candidates comes from a pair of standard positions a, b |
| BattleLineTactics.WedgeWitness | src/App./App.jsx:150-152 | two same-coloured mates of the number card make a Wedge scoring the best straight through it |
| BattleLineTactics.TwoLeadersWedgeAt | src/App./App.jsx:150-152 | with two leaders the search finds a Wedge whose score and sum are the best straight through the number card |
| BattleLineTactics.TwoLeadersAtMost | src/App./App.jsx:150-152 | the two-leader result is no better than that Wedge |
| BattleLineTactics.TwoLeadersAtLeast | src/App./App.jsx:150-152 | the two-leader result is at least that Wedge |
| BattleLineTactics.TwoLeadersMakeWedge | src/App./App.jsx:150-152 | for a hand with two leaders the best formation is that Wedge |
| BattleLineTactics.BelowThirty | src/App./App.jsx:162-165 | every three number cards valued 1..10 evaluate below (Wedge, 30) |
| BattleLineTactics.OneLeaderBelowThirty | src/App./App.jsx:135-143 | the one-leader search result is below (Wedge, 30) |
| BattleLineTactics.TwoLeadersBelowThirty | src/App./App.jsx:144-160 | the two-leader search result is below (Wedge, 30) |
| BattleLineTactics.ThreeLeadersUnbeatable | src/App./App.jsx:161-166 | the three-leader answer (Wedge,30,30) beats the best formation of any hand with fewer leaders |
| BattleLineTactics.WithHand | src/App./App.jsx:434-435 | replacing one side's hand leaves the other hand and every other field of the game unchanged |
| BattleLineTactics.WithSideCards | src/App./App.jsx:336-340 | appending to one side of a slot leaves the other side and the winner unchanged |
| BattleLineTactics.BoardCardsUpdate | src/App./App.jsx:372 | replacing one slot changes the cards on the board by exactly that slot's difference |
| BattleLineTactics.ResolveSlot | src/App./App.jsx:342-371 | a slot with three cards on both sides gets a winner by best formation, then score, a full tie going against the mover; any other slot is unchanged |
| BattleLineTactics.ResolveSlotSymmetric | src/App./App.jsx:351-368 | exchanging the two sides and the mover exchanges the slot's winner |
| BattleLineTactics.SlotOwners | src/App./App.jsx:393-405 | the row of slot winners read by the tally |
| BattleLineTactics.TallySlot | src/App./App.jsx:393-407 | the callback for one slot advances each side's count, streak and longest streak as one step of the scan, the owner's streak growing and the other's resetting |
| BattleLineTactics.Tally | src/App./App.jsx:386-408 | the `forEach` yields each side's slot count and the length of its longest block of adjacent slots |
| BattleLineTactics.DecideOutcome | src/App./App.jsx:386-424 | the tally and the status rules give the host win, else the guest win, else on an exhausted deck and hand a finish by flag count, else the status unchanged |
| BattleLineTactics.LoneWinner | src/App./App.jsx:413-418 | a side with a claim while the other has none finishes the game as winner |
| BattleLineTactics.WinnerMeansFinished | src/App./App.jsx:410-424 | a winner is only announced with the game finished |
| BattleLineTactics.FullBoardDecides | src/App./App.jsx:413-418 | with all nine slots won the game is finished with a winner |
| BattleLineTactics.CountsCover | src/App./App.jsx:393-405 | when every slot is won the two counts add up to the number of slots |
| BattleLineTactics.RemoveAll | src/App./App.jsx:378 | the filter drops every copy of the played card and keeps every other card |
| BattleLineTactics.RemoveAllMultiset | src/App./App.jsx:378 | the filter takes out all copies of the card and nothing else |
| BattleLineTactics.PlayCard | src/App./App.jsx:320-439 | without a selection, on the other side's turn, on a won slot or a full side nothing changes; otherwise the full new state is the resolved slot, the filtered hand with the front card of the deck drawn, the turn passed, and the outcome of the re-tallied board; a card held once is conserved and the invariant kept |
| BattleLineTactics.CommitPlay | src/App./App.jsx:332-435 | the committed move as above; a card held once is conserved, a card not held is added to play |
| BattleLineTactics.PlayEffects | src/App./App.jsx:332-383 | the state after the move holds the same cards (card held once) or one more (card not held) and keeps the invariant |
| BattleLineTactics.PlayKeepsValid | src/App./App.jsx:329-340 | the board keeps nine slots and at most three cards per side |
| BattleLineTactics.PlayConserves | src/App./App.jsx:333-383 | the new state plus the old hand equals the old state plus the filtered hand plus the played card |
| BattleLineTactics.BoardGains | src/App./App.jsx:333-372 | the board gains exactly the played card |
| BattleLineTactics.HandGains | src/App./App.jsx:375-383 | deck and hand together lose exactly the filtered-out copies |
| BattleLineTactics.CardsInBySide | src/App./App.jsx:262-271 | the cards in play are the deck, both hands and the board, whichever side is named first |
| BattleLineTactics.UnshuffledDeck | src/App./App.jsx:54-78 | 63 cards before shuffling |
| BattleLineTactics.UnshuffledDeckComposition | src/App./App.jsx:54-78 | each colour and number 1..10 once, each leader once, and nothing else |
| BattleLineTactics.CreateDeck | src/App./App.jsx:53-86 | number cards then leaders pushed, then shuffled: the shuffle of the unshuffled deck, a permutation of it |
| BattleLineTactics.BoardCardsEmpty | src/App./App.jsx:255-260 | nine empty slots hold no card |
| BattleLineTactics.CreateGame | src/App./App.jsx:245-273 | seven cards to each hand from the front of the shuffled deck, the rest left as the deck, nine empty slots, status waiting, host to move; every card of the deck is in play once and the invariant holds |
| BattleLineTactics.DealConserves | src/App./App.jsx:252-253 | dealing two hands from the front of the deck keeps every card |
| Variants.LoneClaimAgrees | src/App.jsx:128-156 | when exactly one side holds three adjacent flags or five flags, both versions' win checks name that side |
| Variants.BothClaimsDisagree | src/App./App.jsx:413-418 | guest run on flags 1–3 and host run on flags 4–6: the first version names the guest, the second the host |

## Left out

- Firebase: authentication, the database reads and writes, snapshot listeners and the asynchronous calls are not modelled; each action returns the state it would write.
- Randomness: the shuffles' `Math.random` draws are the parameter `picks`; the game ids drawn with `Math.random` and the timestamps (`serverTimestamp`, `Date.now`, `createdAt`, `lastMove`) are left out.
- Identity: user ids are reduced to the side a player acts for; version 1's spectator return (src/App.jsx:518) is the `Onlooker` player for whom nothing changes, and in version 2 anyone who is not the host acts as the guest, as the source's role choice does.
- Version 2's `winnerId` is the winning side; when no guest has joined the source stores `null` as the guest's id, which the model does not distinguish.
- `joinGame` in both versions, chat (`sendMessage`), the install prompt, the meta tags and all rendering are not modelled; tailwind.config.js is not part of this model.
- Tactics-card effects in version 1 (morale, environment, guile) are not implemented by the source either; the flag fields `completedAt` and `environment` (always null) and `hostGuile`/`guestGuile` (always empty) are left out.
- The console logging of both evaluations when a version 2 slot is resolved (src/App./App.jsx:349) is left out: it changes no state.
- Card ids and version 2's slot `id` field are left out; cards are compared as values, which the unique ids make equivalent.
- BattleLine.PlayCard: requires the selected hand index to be within the hand, because the source only offers displayed cards for selection.
- BattleLine.PlayCard, BattleLineTactics.PlayCard: require the flag or slot index to be one of the nine, because the source only calls them from a rendered flag.
- BattleLineTactics.PlayCard: does not test the game status, as the source does not either; card conservation is stated for a selected card held once in the hand (and, in CommitPlay, for one not held at all), since the source never checks that the selected card is in the hand.
- BattleLineTactics.SearchOneWild, BattleLineTactics.SearchTwoWilds: the `testHand` array copied from the hand is modelled as a local sequence updated at the leader positions.
- BattleLine.EvaluateFormation: the colours are not sorted before the flush test, since the order of the colours does not change whether all are equal.
- BattleLineTactics.LoneWinner, BattleLineTactics.WinnerMeansFinished: follow directly from the definition of the outcome.
