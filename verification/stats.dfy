/** The second half of `adjust_minutes`: scale each player's season averages
    by the share of minutes they were allocated and draw the six counts. */
module StatSampling {
  import opened Numeric
  import opened Draws
  import opened Roster

  const PointsSigma: real := 3.0
  const ReboundsSigma: real := 2.0
  const AssistsSigma: real := 2.0
  const StealsSigma: real := 1.0
  const BlocksSigma: real := 1.0
  const TurnoversSigma: real := 1.0

  /** Draws taken per player: points, rebounds, assists, steals, blocks,
      turnovers, in that order. */
  const StatDrawsPerPlayer: nat := 6

  /** `minutes / original_mpg if original_mpg > 0 else 0`: never divides by
      zero. */
  function PlayRatio(minutes: int, mpg: real): real
  {
    DivideOrZero(minutes, mpg)
  }

  /** n is `int(max(0, draw))`: the whole part of the draw clamped at zero. */
  predicate TruncatedDraw(n: int, draw: real)
  {
    0 <= n && n as real <= MaxZero(draw) < n as real + 1.0
  }

  /** A draw has exactly one truncated count. */
  lemma TruncatedDrawIsUnique(m: int, n: int, draw: real)
    requires TruncatedDraw(m, draw) && TruncatedDraw(n, draw)
    ensures m == n
  {
  }

  /** `int(max(0, random.gauss(average * ratio, sigma)))`, reading the draw at
      position `at`. */
  function CountingStat(src: Source, at: nat, average: real, ratio: real, sigma: real): (n: int)
    ensures TruncatedDraw(n, Gauss(src, at, average * ratio, sigma))
  {
    TruncateToInt(MaxZero(Gauss(src, at, average * ratio, sigma)))
  }

  /** The six counting statistics, in the order they are drawn. */
  datatype Stat = Pts | Reb | Ast | Stl | Blk | Tov

  /** The season average each statistic is drawn around. */
  function Average(player: Player, stat: Stat): real
  {
    match stat
    case Pts => player.pointsPerGame
    case Reb => player.reboundsPerGame
    case Ast => player.assistsPerGame
    case Stl => player.stealsPerGame
    case Blk => player.blocksPerGame
    case Tov => player.turnoversPerGame
  }

  function Sigma(stat: Stat): real
  {
    match stat
    case Pts => PointsSigma
    case Reb => ReboundsSigma
    case Ast => AssistsSigma
    case Stl => StealsSigma
    case Blk => BlocksSigma
    case Tov => TurnoversSigma
  }

  /** How far after the player's first stat draw this statistic's draw is. */
  function DrawOffset(stat: Stat): nat
  {
    match stat
    case Pts => 0
    case Reb => 1
    case Ast => 2
    case Stl => 3
    case Blk => 4
    case Tov => 5
  }

  function CountOf(c: Counts, stat: Stat): int
  {
    match stat
    case Pts => c.points
    case Reb => c.rebounds
    case Ast => c.assists
    case Stl => c.steals
    case Blk => c.blocks
    case Tov => c.turnovers
  }

  /** One statistic of one player who was allocated `minutes`, when the
      player's stat draws start at `at`. */
  function SampleStat(player: Player, minutes: int, src: Source, at: nat, stat: Stat): (n: int)
    ensures 0 <= n
  {
    CountingStat(src, at + DrawOffset(stat), Average(player, stat),
                 PlayRatio(minutes, player.minutesPerGame), Sigma(stat))
  }

  /** The six counts of one player who was allocated `minutes`, reading the
      draws at `at` .. `at + 5`. */
  function SampleCounts(player: Player, minutes: int, src: Source, at: nat): (c: Counts)
    ensures CountsNonNegative(c)
  {
    Counts(
      SampleStat(player, minutes, src, at, Pts),
      SampleStat(player, minutes, src, at, Reb),
      SampleStat(player, minutes, src, at, Ast),
      SampleStat(player, minutes, src, at, Stl),
      SampleStat(player, minutes, src, at, Blk),
      SampleStat(player, minutes, src, at, Tov))
  }

  /** Each count is the whole part of a draw centred on the season average
      times the play ratio, clamped at zero; each statistic has its own
      deviation and its own position among the player's six draws. */
  lemma SampledAroundScaledAverage(player: Player, minutes: int, src: Source, at: nat, stat: Stat)
    ensures
      var ratio := PlayRatio(minutes, player.minutesPerGame);
      TruncatedDraw(CountOf(SampleCounts(player, minutes, src, at), stat),
                    Gauss(src, at + DrawOffset(stat), Average(player, stat) * ratio, Sigma(stat)))
  {
    assert CountOf(SampleCounts(player, minutes, src, at), stat) == SampleStat(player, minutes, src, at, stat);
  }

  /** Whether a box-score dict has received its counts yet. */
  datatype Stage = Unsampled | Sampled(counts: Counts)

  /** A box-score dict while the counts are being filled in. Two entries are
      equal exactly when every key and value agrees, as for Python dicts; an
      entry without counts lacks the count keys altogether. */
  datatype Entry = Entry(name: string, position: string, minutes: int, originalMpg: real, stage: Stage)

  /** The dict once its counts are filled in. */
  function WithCounts(e: Entry, c: Counts): Entry
  {
    e.(stage := Sampled(c))
  }

  /** `list.index(x)`: the first position holding a value equal to x. */
  function IndexOf<T(==)>(s: seq<T>, x: T): (i: nat)
    requires x in s
    ensures i < |s| && s[i] == x
    ensures forall j :: 0 <= j < i ==> s[j] != x
  {
    if s[0] == x then 0 else 1 + IndexOf(s[1..], x)
  }

  /** While the counts are filled in front to back, looking an unsampled
      entry up by equality finds its own position: every earlier entry
      already carries counts, so none of them is equal to it. This holds
      whether or not two players share a name. */
  lemma LookupFindsOwnEntry(entries: seq<Entry>, i: nat)
    requires i < |entries|
    requires forall j :: 0 <= j < i ==> entries[j].stage.Sampled?
    requires entries[i].stage.Unsampled?
    ensures IndexOf(entries, entries[i]) == i
  {
  }

  /** Every dict filled with the counts `sample` draws for its own roster
      row: entry i reads the draws from `at + 6 * i`. */
  function SampleAllWith(roster: seq<Player>, entries: seq<Entry>, sample: (Player, int, nat) -> Counts, at: nat): (done: seq<Entry>)
    requires |entries| == |roster|
    ensures |done| == |entries|
    ensures forall i :: 0 <= i < |done| ==> done[i].stage.Sampled?
  {
    seq(|entries|, i requires 0 <= i < |entries| =>
      WithCounts(entries[i], sample(roster[i], entries[i].minutes, at + StatDrawsPerPlayer * i)))
  }

  /** The stats loop as written, for any way `sample` of drawing one
      player's counts from a roster row, the allocated minutes and a stream
      position: for each entry, find the roster row by looking the entry up
      with `index` and fill in the counts drawn from that row. The result is
      the same as reading roster row i for entry i. */
  method FillCounts(roster: seq<Player>, entries: seq<Entry>, sample: (Player, int, nat) -> Counts, at: nat)
    returns (done: seq<Entry>)
    requires |entries| == |roster|
    requires forall i :: 0 <= i < |entries| ==> entries[i].stage.Unsampled?
    ensures |done| == |entries|
    ensures forall i :: 0 <= i < |done| ==>
      done[i] == WithCounts(entries[i], sample(roster[i], entries[i].minutes, at + StatDrawsPerPlayer * i))
    ensures done == SampleAllWith(roster, entries, sample, at)
  {
    done := entries;
    var i := 0;
    while i < |done|
      invariant |done| == |entries|
      invariant 0 <= i <= |done|
      invariant forall j :: 0 <= j < i ==>
        done[j] == WithCounts(entries[j], sample(roster[j], entries[j].minutes, at + StatDrawsPerPlayer * j))
      invariant forall j :: i <= j < |done| ==> done[j] == entries[j]
    {
      var entry := done[i];
      LookupFindsOwnEntry(done, i);
      var row := IndexOf(done, entry);
      var counts := sample(roster[row], entry.minutes, at + StatDrawsPerPlayer * i);
      done := done[i := WithCounts(entry, counts)];
      i := i + 1;
    }
    var all := SampleAllWith(roster, entries, sample, at);
    assert forall j :: 0 <= j < |done| ==> done[j] == all[j];
  }

  /** The engine's own sampler: `SampleCounts` on the generator `src`. */
  function Sampler(src: Source): (Player, int, nat) -> Counts
  {
    (p: Player, m: int, a: nat) => SampleCounts(p, m, src, a)
  }

  /** Every dict filled with the counts drawn for its own roster row by the
      engine's sampler. */
  function SampleAll(roster: seq<Player>, entries: seq<Entry>, src: Source, at: nat): (done: seq<Entry>)
    requires |entries| == |roster|
    ensures |done| == |entries|
    ensures forall i :: 0 <= i < |done| ==> done[i].stage.Sampled?
  {
    SampleAllWith(roster, entries, Sampler(src), at)
  }

  /** The stats loop with the engine's own sampler fills the dicts as
      `SampleAll` describes. */
  method SampleStatsPass(roster: seq<Player>, entries: seq<Entry>, src: Source, at: nat)
    returns (done: seq<Entry>)
    requires |entries| == |roster|
    requires forall i :: 0 <= i < |entries| ==> entries[i].stage.Unsampled?
    ensures done == SampleAll(roster, entries, src, at)
  {
    done := FillCounts(roster, entries, Sampler(src), at);
  }
}
