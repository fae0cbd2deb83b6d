/** The records the engine reads and produces: a roster row of season
    averages and a simulated box-score line. */
module Roster {

  /** One row of the roster query, in its column order: name, position,
      minutes, points, rebounds, assists, steals, blocks, the three shooting
      percentages (read but unused by the engine) and turnovers. */
  datatype Player = Player(
    name: string,
    position: string,
    minutesPerGame: real,
    pointsPerGame: real,
    reboundsPerGame: real,
    assistsPerGame: real,
    stealsPerGame: real,
    blocksPerGame: real,
    fieldGoalPct: real,
    threePointPct: real,
    freeThrowPct: real,
    turnoversPerGame: real)

  /** The six counting statistics sampled for one player. */
  datatype Counts = Counts(
    points: int,
    rebounds: int,
    assists: int,
    steals: int,
    blocks: int,
    turnovers: int)

  /** One box-score entry: identity, allocated minutes, the season minutes
      kept for the play ratio, and the sampled counts. */
  datatype BoxLine = BoxLine(
    name: string,
    position: string,
    minutes: int,
    originalMpg: real,
    counts: Counts)

  predicate CountsNonNegative(c: Counts)
  {
    && 0 <= c.points
    && 0 <= c.rebounds
    && 0 <= c.assists
    && 0 <= c.steals
    && 0 <= c.blocks
    && 0 <= c.turnovers
  }

  /** A box score has one entry per roster player, in roster order. */
  predicate InRosterOrder(box: seq<BoxLine>, roster: seq<Player>)
  {
    && |box| == |roster|
    && forall i :: 0 <= i < |box| ==>
         && box[i].name == roster[i].name
         && box[i].position == roster[i].position
         && box[i].originalMpg == roster[i].minutesPerGame
  }

  /** The team score: the sum of the players' points. */
  function SumPoints(box: seq<BoxLine>): int
  {
    if |box| == 0 then 0 else box[0].counts.points + SumPoints(box[1..])
  }

  function SumMinutes(box: seq<BoxLine>): int
  {
    if |box| == 0 then 0 else box[0].minutes + SumMinutes(box[1..])
  }

  lemma {:induction false} SumPointsNonNegative(box: seq<BoxLine>)
    requires forall i :: 0 <= i < |box| ==> CountsNonNegative(box[i].counts)
    ensures 0 <= SumPoints(box)
  {
    if |box| > 0 {
      SumPointsNonNegative(box[1..]);
    }
  }
}
