/** `simulate_game`: a regulation pass per team and, on a tie, one full
    re-simulation of both teams at the overtime target. */
module GameResolution {
  import opened Numeric
  import opened Draws
  import opened Roster
  import opened MinutesAllocation
  import opened StatSampling
  import opened TeamSimulation

  /** The tuple `simulate_game` returns. */
  datatype GameResult = GameResult(
    homeScore: nat,
    awayScore: nat,
    homeBox: seq<BoxLine>,
    awayBox: seq<BoxLine>,
    isOvertime: bool,
    overtimePeriods: nat)

  /** Where the away regulation pass starts. */
  function AwayRegulationAt(home: seq<Player>, at: nat): nat
  {
    PassEnd(home, at)
  }

  /** Where the home overtime count is drawn: after both regulation passes. */
  function HomeOvertimeDrawAt(home: seq<Player>, away: seq<Player>, at: nat): nat
  {
    PassEnd(away, AwayRegulationAt(home, at))
  }

  /** Where the away overtime count is drawn: after the home overtime pass. */
  function AwayOvertimeDrawAt(home: seq<Player>, away: seq<Player>, at: nat): nat
  {
    PassEnd(home, HomeOvertimeDrawAt(home, away, at) + 1)
  }

  function RegulationHome(home: seq<Player>, src: Source, at: nat): TeamPass
  {
    SimulateTeam(home, RegulationMinutes, src, at)
  }

  function RegulationAway(home: seq<Player>, away: seq<Player>, src: Source, at: nat): TeamPass
  {
    SimulateTeam(away, RegulationMinutes, src, AwayRegulationAt(home, at))
  }

  /** The home overtime pass: `adjust_minutes(home, is_ot=True)` draws its own
      period count first. */
  function OvertimeHome(home: seq<Player>, away: seq<Player>, src: Source, at: nat): TeamPass
  {
    var drawAt := HomeOvertimeDrawAt(home, away, at);
    SimulateTeam(home, OvertimeTarget(src.periods(drawAt)), src, drawAt + 1)
  }

  /** The away overtime pass, which draws a second period count. */
  function OvertimeAway(home: seq<Player>, away: seq<Player>, src: Source, at: nat): TeamPass
  {
    var drawAt := AwayOvertimeDrawAt(home, away, at);
    SimulateTeam(away, OvertimeTarget(src.periods(drawAt)), src, drawAt + 1)
  }

  /** A whole game whose generator calls start at position `at`. */
  function SimulateGame(home: seq<Player>, away: seq<Player>, src: Source, at: nat): (g: GameResult)
    ensures g.isOvertime <==> RegulationHome(home, src, at).score == RegulationAway(home, away, src, at).score
    ensures !g.isOvertime ==>
      && g.homeBox == RegulationHome(home, src, at).box
      && g.awayBox == RegulationAway(home, away, src, at).box
      && g.overtimePeriods == 0
    ensures g.isOvertime ==> 1 <= g.overtimePeriods <= 4
    ensures InRosterOrder(g.homeBox, home) && InRosterOrder(g.awayBox, away)
    ensures forall i :: 0 <= i < |g.homeBox| ==> CountsNonNegative(g.homeBox[i].counts)
    ensures forall i :: 0 <= i < |g.awayBox| ==> CountsNonNegative(g.awayBox[i].counts)
    ensures g.homeScore == SumPoints(g.homeBox) && g.awayScore == SumPoints(g.awayBox)
  {
    var regHome := RegulationHome(home, src, at);
    var regAway := RegulationAway(home, away, src, at);
    if regHome.score != regAway.score then
      GameResult(regHome.score, regAway.score, regHome.box, regAway.box, false, 0)
    else
      var otHome := OvertimeHome(home, away, src, at);
      var otAway := OvertimeAway(home, away, src, at);
      GameResult(otHome.score, otAway.score, otHome.box, otAway.box, true,
                 src.periods(AwayOvertimeDrawAt(home, away, at)))
  }

  /** On a regulation tie both box scores are wholly the overtime passes:
      home at the target of the first period draw, away at the target of the
      second, and the reported count is the second draw. Nothing looks at
      the overtime scores, so a second tie stands. */
  lemma OvertimeReplacesRegulation(home: seq<Player>, away: seq<Player>, src: Source, at: nat)
    ensures RegulationHome(home, src, at).score == RegulationAway(home, away, src, at).score ==>
      var g := SimulateGame(home, away, src, at);
      var homeTarget := OvertimeTarget(src.periods(HomeOvertimeDrawAt(home, away, at)));
      var awayTarget := OvertimeTarget(src.periods(AwayOvertimeDrawAt(home, away, at)));
      && g.isOvertime
      && g.homeBox == OvertimeHome(home, away, src, at).box
      && g.awayBox == OvertimeAway(home, away, src, at).box
      && g.overtimePeriods == src.periods(AwayOvertimeDrawAt(home, away, at))
      && (0.0 < SumReal(RawMinutes(home, src, HomeOvertimeDrawAt(home, away, at) + 1)) ==>
            WithinRounding(SumMinutes(g.homeBox), homeTarget, |home|))
      && (0.0 < SumReal(RawMinutes(away, src, AwayOvertimeDrawAt(home, away, at) + 1)) ==>
            WithinRounding(SumMinutes(g.awayBox), awayTarget, |away|))
  {
  }

  /** Without a tie the regulation minutes stand, near 240 per team. */
  lemma RegulationMinutesNearTarget(home: seq<Player>, away: seq<Player>, src: Source, at: nat)
    ensures RegulationHome(home, src, at).score != RegulationAway(home, away, src, at).score ==>
      var g := SimulateGame(home, away, src, at);
      && !g.isOvertime
      && (0.0 < SumReal(RawMinutes(home, src, at)) ==>
            WithinRounding(SumMinutes(g.homeBox), RegulationMinutes, |home|))
      && (0.0 < SumReal(RawMinutes(away, src, AwayRegulationAt(home, at))) ==>
            WithinRounding(SumMinutes(g.awayBox), RegulationMinutes, |away|))
  {
  }

  /** Every deviate zero and a count of 1 for the home draw, 4 for the away
      draw. */
  function ZeroDeviates(homeDrawAt: nat): Source
  {
    Source((_: nat) => 0.0, (p: nat) => if p == homeDrawAt then 1 else 4)
  }

  function OnlyMinutes(name: string, mpg: real, ppg: real): Player
  {
    Player(name, "G", mpg, ppg, 0.0, 0.0, 0.0, 0.0, 0.0, 0.0, 0.0, 0.0)
  }

  /** With a zero deviate a player's minutes draw is their season average,
      so alone on a roster they are allocated the whole target. */
  lemma LoneAllocation(player: Player, target: int, src: Source, at: nat)
    requires 0.0 < player.minutesPerGame
    requires src.normal(at) == 0.0
    ensures AllocateMinutes([player], target, src, at) == [target]
  {
    var raw := ClampMinutes(player.minutesPerGame);
    assert RawMinutes([player], src, at) == [raw];
    LonePlayerTakesWholeTarget(raw, target);
  }

  /** The rosters' order matters for a given source, because the minutes
      draws are read in roster order. With a deviate of 5 at the first
      position and 0 elsewhere, A (30 mpg) listed before B (10 mpg) draws 40
      raw minutes against B's 10 and is allocated 192 of 240; listed after
      B, A keeps 30 against B's 20 and is allocated 144. */
  lemma RosterOrderMatters()
    ensures
      var a := OnlyMinutes("A", 30.0, 0.0);
      var b := OnlyMinutes("B", 10.0, 0.0);
      var src := Source((p: nat) => if p == 0 then 5.0 else 0.0, (_: nat) => 1);
      && AllocateMinutes([a, b], RegulationMinutes, src, 0)[0] == 192
      && AllocateMinutes([b, a], RegulationMinutes, src, 0)[1] == 144
  {
    var a := OnlyMinutes("A", 30.0, 0.0);
    var b := OnlyMinutes("B", 10.0, 0.0);
    var src := Source((p: nat) => if p == 0 then 5.0 else 0.0, (_: nat) => 1);
    var first := RawMinutes([a, b], src, 0);
    assert first == [40.0, 10.0];
    assert first[1..] == [10.0] && first[1..][1..] == [];
    assert SumReal(first[1..][1..]) == 0.0;
    assert SumReal(first[1..]) == 10.0;
    assert SumReal(first) == 50.0;
    assert Scaled(first, RegulationMinutes)[0] == 192.0;
    var second := RawMinutes([b, a], src, 0);
    assert second == [20.0, 30.0];
    assert second[1..] == [30.0] && second[1..][1..] == [];
    assert SumReal(second[1..][1..]) == 0.0;
    assert SumReal(second[1..]) == 30.0;
    assert SumReal(second) == 50.0;
    assert Scaled(second, RegulationMinutes)[1] == 144.0;
  }

  /** With a zero deviate at its draw, a statistic is the whole part of
      the scaled season average. */
  lemma ZeroDeviateStat(player: Player, minutes: int, src: Source, at: nat, stat: Stat)
    requires src.normal(at + DrawOffset(stat)) == 0.0
    ensures SampleStat(player, minutes, src, at, stat)
         == TruncateToInt(MaxZero(Average(player, stat) * PlayRatio(minutes, player.minutesPerGame)))
  {
    var mu := Average(player, stat) * PlayRatio(minutes, player.minutesPerGame);
    GaussStandardises(src, at + DrawOffset(stat), mu, Sigma(stat));
  }

  /** With a zero deviate at the points draw, the points count is the whole
      part of the scaled points average. */
  lemma ZeroDeviatePoints(player: Player, minutes: int, src: Source, at: nat)
    requires src.normal(at) == 0.0
    ensures SampleCounts(player, minutes, src, at).points
         == TruncateToInt(MaxZero(player.pointsPerGame * PlayRatio(minutes, player.minutesPerGame)))
  {
    ZeroDeviateStat(player, minutes, src, at, Pts);
    assert SampleCounts(player, minutes, src, at).points == SampleStat(player, minutes, src, at, Pts);
  }

  /** With a zero deviate at the points draw, a lone player's box score
      holds the whole part of their scaled points average. */
  lemma ZeroDeviateBox(player: Player, minutes: int, src: Source, at: nat)
    requires src.normal(at) == 0.0
    ensures
      var box := BuildBox([player], [minutes], src, at);
      && |box| == 1
      && box[0].minutes == minutes
      && SumPoints(box) == TruncateToInt(MaxZero(player.pointsPerGame * PlayRatio(minutes, player.minutesPerGame)))
  {
    var box := BuildBox([player], [minutes], src, at);
    ZeroDeviatePoints(player, minutes, src, at);
    assert box[0].counts == SampleCounts(player, minutes, src, at);
    assert box[1..] == [];
    assert SumPoints(box) == box[0].counts.points + SumPoints(box[1..]);
  }

  /** A lone player with no randomness in the minutes and points draws plays
      the whole target and scores the whole part of their points average
      times the play ratio. */
  lemma LonePlayerPass(player: Player, target: int, src: Source, at: nat)
    requires 0.0 < player.minutesPerGame
    requires src.normal(at) == 0.0 && src.normal(at + 1) == 0.0
    ensures
      var pass := SimulateTeam([player], target, src, at);
      && |pass.box| == 1
      && pass.box[0].minutes == target
      && pass.score == TruncateToInt(MaxZero(player.pointsPerGame * PlayRatio(target, player.minutesPerGame)))
  {
    LoneAllocation(player, target, src, at);
    ZeroDeviateBox(player, target, src, at + 1);
  }

  /** A lone 30-minute player with no randomness plays all 240 regulation
      minutes. */
  lemma ThirtyMinuteLonePass(player: Player, src: Source, at: nat)
    requires player.minutesPerGame == 30.0
    requires src.normal(at) == 0.0 && src.normal(at + 1) == 0.0
    ensures
      var pass := SimulateTeam([player], RegulationMinutes, src, at);
      && |pass.box| == 1 && pass.box[0].minutes == 240
      && pass.score == TruncateToInt(MaxZero(player.pointsPerGame * PlayRatio(RegulationMinutes, 30.0)))
  {
    LonePlayerPass(player, RegulationMinutes, src, at);
  }

  /** The regulation passes of two lone 30-minute players with 20 and 18
      points a game and no randomness: they score 160 and 144. */
  lemma LoneScorersRegulation()
    ensures
      var home := RegulationHome([OnlyMinutes("A", 30.0, 20.0)], ZeroDeviates(14), 0);
      && |home.box| == 1 && home.box[0].minutes == 240 && home.score == 160
    ensures
      var away := RegulationAway([OnlyMinutes("A", 30.0, 20.0)], [OnlyMinutes("B", 30.0, 18.0)], ZeroDeviates(14), 0);
      && |away.box| == 1 && away.box[0].minutes == 240 && away.score == 144
  {
    var src := ZeroDeviates(14);
    assert PlayRatio(RegulationMinutes, 30.0) == 8.0;
    ThirtyMinuteLonePass(OnlyMinutes("A", 30.0, 20.0), src, 0);
    assert AwayRegulationAt([OnlyMinutes("A", 30.0, 20.0)], 0) == 7;
    ThirtyMinuteLonePass(OnlyMinutes("B", 30.0, 18.0), src, 7);
  }

  /** With those passes the game ends in regulation at 160 to 144. */
  lemma LoneScorersScenario()
    ensures
      var g := SimulateGame([OnlyMinutes("A", 30.0, 20.0)], [OnlyMinutes("B", 30.0, 18.0)], ZeroDeviates(14), 0);
      && !g.isOvertime
      && g.homeScore == 160 && g.awayScore == 144
      && g.homeBox[0].minutes == 240 && g.awayBox[0].minutes == 240
  {
    LoneScorersRegulation();
  }

  /** Two identical scoreless players tie in regulation. The home overtime
      pass is run at 245 minutes (first draw 1), the away one at 260 (second
      draw 4), the game reports 4 periods, and the overtime tie at 0-0
      stands. */
  lemma TwoOvertimeDrawsScenario()
    ensures
      var g := SimulateGame([OnlyMinutes("A", 30.0, 0.0)], [OnlyMinutes("B", 30.0, 0.0)], ZeroDeviates(14), 0);
      && g.isOvertime
      && g.overtimePeriods == 4
      && g.homeBox[0].minutes == 245 && g.awayBox[0].minutes == 260
      && g.homeScore == 0 && g.awayScore == 0
  {
    var home := [OnlyMinutes("A", 30.0, 0.0)];
    var away := [OnlyMinutes("B", 30.0, 0.0)];
    var src := ZeroDeviates(14);
    assert HomeOvertimeDrawAt(home, away, 0) == 14;
    assert AwayOvertimeDrawAt(home, away, 0) == 22;
    LonePlayerPass(home[0], RegulationMinutes, src, 0);
    LonePlayerPass(away[0], RegulationMinutes, src, 7);
    assert RegulationHome(home, src, 0).score == 0 == RegulationAway(home, away, src, 0).score;
    assert src.periods(14) == 1 && src.periods(22) == 4;
    LonePlayerPass(home[0], 245, src, 15);
    assert OvertimeHome(home, away, src, 0) == SimulateTeam(home, 245, src, 15);
    LonePlayerPass(away[0], 260, src, 23);
    assert OvertimeAway(home, away, src, 0) == SimulateTeam(away, 260, src, 23);
  }
}
