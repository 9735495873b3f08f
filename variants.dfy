/** How the two versions' win checks relate on the same row of flag owners.
    The first version reads the flags left to right and stops at the first
    run of three, whoever completes it; the second tests the host first and
    the guest second. */
module Variants {
  import opened Common
  import opened Runs
  import BattleLine
  import BattleLineTactics

  /** When exactly one side has a claim (three adjacent flags or five
      flags), both versions name that side. */
  lemma LoneClaimAgrees(o: Owners, s: Side, exhausted: bool, status: BattleLineTactics.Status)
    requires BattleLineTactics.Wins(o, s) && !BattleLineTactics.Wins(o, Opp(s))
    ensures BattleLine.WinnerOf(o) == Some(s)
    ensures BattleLineTactics.Outcome(o, exhausted, status).1 == Some(s)
  {
    if !HasRun(o, Host, 3) && !HasRun(o, Guest, 3) {
      BattleLine.WinnerByCount(o);
    } else {
      BattleLine.HasRunEndsAt(o, Host);
      BattleLine.HasRunEndsAt(o, Guest);
      BattleLine.FirstRunFromSpec(o, 0);
      var t := if HasRun(o, Host, 3) then Host else Guest;
      var j :| 0 <= j < |o| && BattleLine.RunEndsAt(o, t, j);
      assert BattleLine.WinnerOf(o).Some?;
      var x := BattleLine.WinnerOf(o).value;
      BattleLine.WinnerHasClaim(o, x);
      assert BattleLineTactics.Wins(o, x);
      assert x == s || x == Opp(s);
    }
  }

  /** Both sides with a run of three: the guest's comes first, so the first
      version names the guest, while the second names the host. */
  lemma BothClaimsDisagree()
    ensures var o := [Some(Guest), Some(Guest), Some(Guest), Some(Host), Some(Host), Some(Host), None, None, None];
      && BattleLine.WinnerOf(o) == Some(Guest)
      && BattleLineTactics.Outcome(o, false, BattleLineTactics.Playing) == (BattleLineTactics.Finished, Some(Host))
  {
    var o := [Some(Guest), Some(Guest), Some(Guest), Some(Host), Some(Host), Some(Host), None, None, None];
    assert BattleLine.RunEndsAt(o, Guest, 2);
    BattleLine.EarliestRunWins(o, Guest, 2);
    assert RunAt(o, Host, 3, 3);
  }
}
