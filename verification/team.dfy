/** `adjust_minutes` as a whole: one simulated pass of one roster at a given
    target of combined player-minutes. */
module TeamSimulation {
  import opened Numeric
  import opened Draws
  import opened Roster
  import opened MinutesAllocation
  import opened StatSampling

  /** A pass returns the box score and the team score. */
  datatype TeamPass = TeamPass(box: seq<BoxLine>, score: int)

  /** Generator calls a pass makes per player: one minutes draw and six stat
      draws. */
  const DrawsPerPlayer: nat := 1 + StatDrawsPerPlayer

  /** The position after a pass over `roster` that started at `at`. */
  function PassEnd(roster: seq<Player>, at: nat): nat
  {
    at + DrawsPerPlayer * |roster|
  }

  lemma {:induction false} SumMinutesOfAllocation(box: seq<BoxLine>, alloc: seq<int>)
    requires |box| == |alloc|
    requires forall i :: 0 <= i < |box| ==> box[i].minutes == alloc[i]
    ensures SumMinutes(box) == SumInt(alloc)
  {
    if |box| > 0 {
      SumMinutesOfAllocation(box[1..], alloc[1..]);
    }
  }

  /** The box score once minutes are allocated, for any way `sample` of
      drawing one player's counts: player i's counts are drawn at
      `statsAt + 6 * i`. */
  function BoxWith(roster: seq<Player>, alloc: seq<int>, sample: (Player, int, nat) -> Counts, statsAt: nat): (box: seq<BoxLine>)
    requires |alloc| == |roster|
    ensures |box| == |roster|
  {
    seq(|roster|, i requires 0 <= i < |roster| =>
      BoxLine(roster[i].name, roster[i].position, alloc[i], roster[i].minutesPerGame,
              sample(roster[i], alloc[i], statsAt + StatDrawsPerPlayer * i)))
  }

  /** The box score once minutes are allocated: player i's counts read the
      six draws from `statsAt + 6 * i`. */
  function BuildBox(roster: seq<Player>, alloc: seq<int>, src: Source, statsAt: nat): (box: seq<BoxLine>)
    requires |alloc| == |roster|
    ensures InRosterOrder(box, roster)
    ensures forall i :: 0 <= i < |box| ==> box[i].minutes == alloc[i]
    ensures forall i :: 0 <= i < |box| ==>
      box[i].counts == SampleCounts(roster[i], alloc[i], src, statsAt + StatDrawsPerPlayer * i)
    ensures forall i :: 0 <= i < |box| ==> CountsNonNegative(box[i].counts)
  {
    BoxWith(roster, alloc, Sampler(src), statsAt)
  }

  /** The pass once minutes are allocated: the box score and the sum of its
      points. */
  function PassOn(roster: seq<Player>, alloc: seq<int>, src: Source, statsAt: nat): TeamPass
    requires |alloc| == |roster|
  {
    var box := BuildBox(roster, alloc, src, statsAt);
    TeamPass(box, SumPoints(box))
  }

  /** One pass: the minutes draws come first (positions `at` .. `at + n - 1`),
      then six stat draws per player in roster order. */
  function SimulateTeam(roster: seq<Player>, target: int, src: Source, at: nat): (pass: TeamPass)
    ensures InRosterOrder(pass.box, roster)
    ensures forall i :: 0 <= i < |pass.box| ==>
      && pass.box[i].minutes == AllocateMinutes(roster, target, src, at)[i]
      && pass.box[i].counts
           == SampleCounts(roster[i], pass.box[i].minutes, src, at + |roster| + StatDrawsPerPlayer * i)
    ensures forall i :: 0 <= i < |pass.box| ==> CountsNonNegative(pass.box[i].counts)
    ensures 0 <= target ==> forall i :: 0 <= i < |pass.box| ==> 0 <= pass.box[i].minutes <= target
    ensures 0.0 < SumReal(RawMinutes(roster, src, at)) ==>
      WithinRounding(SumMinutes(pass.box), target, |roster|)
    ensures SumReal(RawMinutes(roster, src, at)) <= 0.0 ==>
      forall i :: 0 <= i < |pass.box| ==> pass.box[i].minutes == 0
    ensures pass.score == SumPoints(pass.box)
    ensures 0 <= pass.score
  {
    var alloc := AllocateMinutes(roster, target, src, at);
    var pass := PassOn(roster, alloc, src, at + |roster|);
    SumMinutesOfAllocation(pass.box, alloc);
    SumPointsNonNegative(pass.box);
    pass
  }

  /** The unsampled dicts of the first loop: each player's identity, the
      allocated minutes and the season minutes, without count keys. */
  function UnsampledEntries(roster: seq<Player>, alloc: seq<int>): (entries: seq<Entry>)
    requires |alloc| == |roster|
    ensures |entries| == |roster|
    ensures forall i :: 0 <= i < |entries| ==> entries[i].stage.Unsampled?
  {
    seq(|roster|, i requires 0 <= i < |roster| =>
      Entry(roster[i].name, roster[i].position, alloc[i], roster[i].minutesPerGame, Unsampled))
  }

  /** A filled dict read as a box-score line. */
  function LineOf(e: Entry): BoxLine
    requires e.stage.Sampled?
  {
    BoxLine(e.name, e.position, e.minutes, e.originalMpg, e.stage.counts)
  }

  /** The filled dicts read as box-score lines, in order. */
  function LinesOf(done: seq<Entry>): (lines: seq<BoxLine>)
    requires forall i :: 0 <= i < |done| ==> done[i].stage.Sampled?
    ensures |lines| == |done|
    ensures forall i :: 0 <= i < |done| ==> lines[i] == LineOf(done[i])
  {
    seq(|done|, i requires 0 <= i < |done| => LineOf(done[i]))
  }

  /** Filling the unsampled dicts with any sampler and reading them as
      lines gives the box score `BoxWith` builds with that sampler. */
  lemma FilledLinesAreBox(roster: seq<Player>, alloc: seq<int>, sample: (Player, int, nat) -> Counts, statsAt: nat)
    requires |alloc| == |roster|
    ensures LinesOf(SampleAllWith(roster, UnsampledEntries(roster, alloc), sample, statsAt))
         == BoxWith(roster, alloc, sample, statsAt)
  {
    var entries := UnsampledEntries(roster, alloc);
    var box := LinesOf(SampleAllWith(roster, entries, sample, statsAt));
    var built := BoxWith(roster, alloc, sample, statsAt);
    assert forall i :: 0 <= i < |box| ==> box[i] == built[i];
  }

  /** The second half of `adjust_minutes`: the dicts of the first loop,
      filled by the stats loop and its index lookup, read as lines, with
      their points summed. This is the pass `PassOn` describes, which
      `SimulateTeam` applies to the allocated minutes. */
  method FillPass(roster: seq<Player>, alloc: seq<int>, src: Source, statsAt: nat) returns (pass: TeamPass)
    requires |alloc| == |roster|
    ensures pass == PassOn(roster, alloc, src, statsAt)
  {
    var done := SampleStatsPass(roster, UnsampledEntries(roster, alloc), src, statsAt);
    var box := LinesOf(done);
    FilledLinesAreBox(roster, alloc, Sampler(src), statsAt);
    pass := TeamPass(box, SumPoints(box));
  }
}
