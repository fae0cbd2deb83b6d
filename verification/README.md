# Basketball game simulation engine, in Dafny

This project models the game simulation engine of the NBA game simulator
(`SimulateGameTool`). The engine takes two rosters of season-average player
statistics and produces one simulated game.

- **Minutes allocation.** Each player gets a raw minutes value drawn around
  their season minutes and clamped to [0, 48]. Every value is then scaled by
  `target / total` (0 when the total is 0) and rounded half to even, as
  Python's `round` does. The target is 240 in regulation and `240 + 5·k` in
  overtime.
- **Stat sampling.** The play ratio is `minutes / mpg`, or 0 when mpg is 0.
  Points, rebounds, assists, steals, blocks and turnovers are each drawn
  around `average × ratio`, clamped at 0 and truncated by `int`. The team
  score is the sum of points.
- **Game resolution.** There is one regulation pass per team. On a tie,
  both teams' whole games are simulated again at the overtime target. There
  is never a second overtime.
- **Box-score formatting.** A stable sort by points, highest first, under a
  four-line header.
- **`run`.** An empty home roster is rejected first, then an empty away
  roster. Otherwise the final-score line is built, with an overtime suffix
  such as ` (1OT)` or ` (3OTs)`.

Randomness is an explicit input. `Draws.Source` holds two streams. The p-th
call to Python's generator reads `normal(p)`, a standard normal deviate, or
`periods(p)`, a value in 1..4 for `random.randint(1, 4)`.
`random.gauss(mu, sigma)` is `mu + z * sigma`, which is how Python's
generator computes it. Within one team pass starting at cursor `c` with `n`
players:
- minutes draws are at `c .. c+n-1`;
- player i's six stat draws are at `c+n+6i .. c+n+6i+5`;
- the pass uses `7n` positions.

A game reads:
- home regulation;
- away regulation;
- then, on a tie: the home overtime count, the home overtime pass, the away
  overtime count, the away overtime pass.

Because the source is an input, a game is a pure function of its rosters and
its source. The same seed always gives the same result.

The modules follow the structure of `simulate_game`:
- `Numeric`: Python's `round`, `int`, `max(0, x)` and `sum` over exact reals;
- `Decimal`: int-to-text for the score line;
- `Draws`: the random source;
- `Roster`: the records;
- `MinutesAllocation`, `StatSampling`, `TeamSimulation`: the two halves of
  `adjust_minutes`, and the whole of it;
- `GameResolution`: `simulate_game`;
- `BoxScoreFormat`: `format_box_score`;
- `SimulateRun`: `run`.

## Behaviour worth knowing

- Allocated minutes are not bounded by 48. The clamp applies to the raw
  value before scaling, and the scale factor can exceed 1: a lone player is
  scaled to the whole target (`LonePlayerTakesWholeTarget`). What is proved
  is `0 <= minutes <= target`.
- Allocated minutes are integers, because `round` returns an int.
- Rounding each player's share on its own moves the minutes total by at
  most n/2 for n players.
- Overtime draws its period count twice: once inside the home call and once
  inside the away call (`nonlocal`). The home pass uses the first draw's
  target, the away pass the second's, and the reported count is the second
  draw (`TwoOvertimeDrawsScenario`: home 245 minutes, away 260, reported 4).
- The points deviation is exactly 3.
- `players[box_score.index(player)]` finds the player's own row by dict
  equality even when two players share a name. Every earlier dict already
  has the count keys and the current one does not, so none of the earlier
  ones is equal to it (`LookupFindsOwnEntry`, `FillCounts`). Unique player
  names are therefore not needed for this.
- The order of a roster matters, because the minutes draws are read in
  roster order (`RosterOrderMatters`). With a deviate of 5 at the first
  draw and 0 elsewhere, a 30-mpg player listed before a 10-mpg one gets 192
  of 240 minutes, and listed after it gets 144.

## Model

| member | source | states |
|---|---|---|
| Numeric.RoundHalfEven | basketball_simulator_agency/game_simulation_agent/tools/SimulateGameTool.py:89 | `round` gives an integer within 1/2 of its argument; on an exact half it gives the even neighbour |
| Numeric.RoundHalfEvenIsUnique | basketball_simulator_agency/game_simulation_agent/tools/SimulateGameTool.py:89 | any integer with those two properties is the rounded value, so they define `round` completely |
| Numeric.RoundStaysInRange | basketball_simulator_agency/game_simulation_agent/tools/SimulateGameTool.py:89 | rounding a value in [0, hi], for an integer hi, gives an integer in [0, hi] |
| Numeric.TruncateToInt | basketball_simulator_agency/game_simulation_agent/tools/SimulateGameTool.py:106-111 | `int` truncates toward zero; on a non-negative value it is the floor |
| Numeric.MaxZero | basketball_simulator_agency/game_simulation_agent/tools/SimulateGameTool.py:97-102 | `max(0, x)` is non-negative, at least x, and is either x or 0 |
| Numeric.DivideOrZero | basketball_simulator_agency/game_simulation_agent/tools/SimulateGameTool.py:87-94 | the guarded quotient behind both the scale factor (`target / total`) and the play ratio (`minutes / original_mpg`): a positive divisor times it gives back the dividend, a divisor of 0 gives 0 so nothing divides by zero, and a non-negative dividend gives a non-negative result |
| Numeric.RoundingDriftBound | basketball_simulator_agency/game_simulation_agent/tools/SimulateGameTool.py:86-89 | rounding each value on its own moves the total by at most half a unit per value |
| Numeric.SumRealScaled | basketball_simulator_agency/game_simulation_agent/tools/SimulateGameTool.py:87-89 | scaling every raw value by k scales their total by k, so the scaled values sum to the target exactly |
| Draws.GaussStandardises | basketball_simulator_agency/game_simulation_agent/tools/SimulateGameTool.py:77-102 | `random.gauss(mu, sigma)`, for the minutes draw (mu = mpg, sigma 2, line 77) and each stat draw (mu = average × ratio, lines 97-102), is centred on mu: a zero deviate gives mu exactly, and (draw − mu) / sigma recovers the deviate |
| Decimal.NatToDecimal | basketball_simulator_agency/game_simulation_agent/tools/SimulateGameTool.py:171 | `str` of a non-negative int is its canonical decimal form: non-empty digits with no leading zero (just "0" for zero), reading back as the same number |
| Decimal.NatToDecimalInjective | basketball_simulator_agency/game_simulation_agent/tools/SimulateGameTool.py:171 | different scores never print the same |
| Decimal.CanonicalIsNatToDecimal | basketball_simulator_agency/game_simulation_agent/tools/SimulateGameTool.py:171 | every canonical digit string is the `str` of the number it reads as, so canonical form and `str` are the same thing |
| MinutesAllocation.OvertimeTarget | basketball_simulator_agency/game_simulation_agent/tools/SimulateGameTool.py:68-70 | an overtime target is one of 245, 250, 255 or 260, above the regulation 240, and encodes the drawn period count |
| MinutesAllocation.ClampMinutes | basketball_simulator_agency/game_simulation_agent/tools/SimulateGameTool.py:77 | a raw minutes value lands in [0, 48]: unchanged inside, 0 below, 48 above |
| MinutesAllocation.RawMinutes | basketball_simulator_agency/game_simulation_agent/tools/SimulateGameTool.py:72-84 | one raw minutes value per roster player, in roster order: player i's is `min(48, max(0, gauss(mpg_i, 2)))` with its deviate at stream position at + i, hence in [0, 48] |
| MinutesAllocation.ShareAtMostTarget | basketball_simulator_agency/game_simulation_agent/tools/SimulateGameTool.py:87-89 | a non-negative share of the total, once scaled, is between 0 and the target |
| MinutesAllocation.ScaledShareAtMostTarget | basketball_simulator_agency/game_simulation_agent/tools/SimulateGameTool.py:87-89 | every scaled raw value of a roster is between 0 and the target |
| MinutesAllocation.Scaled | basketball_simulator_agency/game_simulation_agent/tools/SimulateGameTool.py:86-89 | each scaled value is its raw value times target / total (scaled_i × total = raw_i × target) when the total is positive, and 0 when it is 0; the scaled values sum to the target exactly and each lies in [0, target] |
| MinutesAllocation.ScaledSeqProportion | basketball_simulator_agency/game_simulation_agent/tools/SimulateGameTool.py:87-89 | multiplying every raw value by one factor k with k × total = target keeps each player's proportion: scaled_i × total = raw_i × target |
| MinutesAllocation.Allocate | basketball_simulator_agency/game_simulation_agent/tools/SimulateGameTool.py:86-89 | each player's allocation is `round` of their own scaled share (nearest integer, ties to even); all are in [0, target]; with a positive raw total they sum to within n/2 of the target; with a zero total they are all 0 |
| MinutesAllocation.AllocateMinutes | basketball_simulator_agency/game_simulation_agent/tools/SimulateGameTool.py:65-89 | the first half of `adjust_minutes` for a roster: player i's allocation is `round` of their own clamped draw scaled by target / total; each is in [0, target]; the total is within n/2 of the target when the clamped draws are not all 0, and all are 0 otherwise |
| MinutesAllocation.LonePlayerTakesWholeTarget | basketball_simulator_agency/game_simulation_agent/tools/SimulateGameTool.py:86-89 | a lone player with any positive raw minutes is allocated the whole target (240 in regulation), so allocations are not capped at 48 |
| StatSampling.TruncatedDrawIsUnique | basketball_simulator_agency/game_simulation_agent/tools/SimulateGameTool.py:106-111 | a draw determines its count: the whole part of the draw clamped at 0 |
| StatSampling.CountingStat | basketball_simulator_agency/game_simulation_agent/tools/SimulateGameTool.py:97-111 | a count is a non-negative integer n with n <= max(0, draw) < n + 1, the draw centred on average × ratio |
| StatSampling.SampleCounts | basketball_simulator_agency/game_simulation_agent/tools/SimulateGameTool.py:92-112 | all six counts of a player are non-negative |
| StatSampling.SampledAroundScaledAverage | basketball_simulator_agency/game_simulation_agent/tools/SimulateGameTool.py:92-111 | each of the six counts (points, rebounds, assists, steals, blocks, turnovers) is the truncated, zero-clamped draw around that statistic's season average × play ratio, with deviations 3, 2, 2, 1, 1, 1, at six consecutive stream positions in that order |
| StatSampling.IndexOf | basketball_simulator_agency/game_simulation_agent/tools/SimulateGameTool.py:97-102 | `list.index` returns the first position holding an equal value |
| StatSampling.LookupFindsOwnEntry | basketball_simulator_agency/game_simulation_agent/tools/SimulateGameTool.py:97-102 | while counts are filled front to back, looking up the current dict finds its own position, whether or not names repeat |
| StatSampling.FillCounts | basketball_simulator_agency/game_simulation_agent/tools/SimulateGameTool.py:91-112 | the stats loop with its index lookup gives each dict the counts drawn from its own roster row, at its own stream positions (at + 6i), and leaves the other keys alone; its result is the row-by-row reference `SampleAllWith` |
| StatSampling.SampleStatsPass | basketball_simulator_agency/game_simulation_agent/tools/SimulateGameTool.py:91-112 | the same loop with the engine's sampler equals the reference `SampleAll`: every dict sampled from its own row at at + 6i |
| Roster.SumPointsNonNegative | basketball_simulator_agency/game_simulation_agent/tools/SimulateGameTool.py:114 | a sum of non-negative points is non-negative |
| TeamSimulation.SumMinutesOfAllocation | basketball_simulator_agency/game_simulation_agent/tools/SimulateGameTool.py:79-89 | a box score carries exactly the allocated minutes, so its minutes total is the allocation total |
| TeamSimulation.BuildBox | basketball_simulator_agency/game_simulation_agent/tools/SimulateGameTool.py:79-112 | one entry per roster player in roster order, carrying name, position and season mpg; entry i has exactly allocation i as minutes and the counts `SampleCounts` draws for player i at stream position statsAt + 6i, all non-negative |
| TeamSimulation.UnsampledEntries | basketball_simulator_agency/game_simulation_agent/tools/SimulateGameTool.py:73-84 | the first loop of `adjust_minutes` builds one dict per player, none of them yet carrying counts |
| TeamSimulation.FilledLinesAreBox | basketball_simulator_agency/game_simulation_agent/tools/SimulateGameTool.py:79-112 | running the stats loop over the first loop's dicts, with any sampler, gives exactly the box score built row by row from the roster and allocation |
| TeamSimulation.FillPass | basketball_simulator_agency/game_simulation_agent/tools/SimulateGameTool.py:91-114 | the second loop of `adjust_minutes`, run over the dicts of the first, then the points sum, gives the same team result as building the box score row by row and summing its points |
| TeamSimulation.SimulateTeam | basketball_simulator_agency/game_simulation_agent/tools/SimulateGameTool.py:65-114 | `adjust_minutes`: one entry per player in roster order; entry i's minutes are player i's allocation and its counts are drawn at stream position at + n + 6i, after the n minutes draws; counts non-negative; minutes in [0, target], totalling within n/2 of the target, or all 0 if the draws are; the score is the sum of points |
| GameResolution.SimulateGame | basketball_simulator_agency/game_simulation_agent/tools/SimulateGameTool.py:55-126 | overtime exactly when the regulation scores tie; without it, the regulation box scores with 0 periods; with it, 1..4 periods; box scores in roster order with non-negative counts; scores are the sums of points |
| GameResolution.OvertimeReplacesRegulation | basketball_simulator_agency/game_simulation_agent/tools/SimulateGameTool.py:62-126 | on a tie, each box score is wholly the overtime re-simulation (home at the first draw's target, away at the second's); minutes total near that target; the reported count is the second draw; a second tie stands |
| GameResolution.RegulationMinutesNearTarget | basketball_simulator_agency/game_simulation_agent/tools/SimulateGameTool.py:116-126 | without a tie there is no overtime, and each team's minutes total (home and away) is within n/2 of 240 whenever its clamped draws are not all 0 |
| GameResolution.LoneAllocation | basketball_simulator_agency/game_simulation_agent/tools/SimulateGameTool.py:72-89 | with a zero deviate, a lone player with a positive season mpg is allocated the whole target |
| GameResolution.LonePlayerPass | basketball_simulator_agency/game_simulation_agent/tools/SimulateGameTool.py:65-114 | with zero deviates at the minutes and points draws, a lone player plays the whole target and the team score is the whole part of their points average × play ratio |
| GameResolution.ZeroDeviateStat | basketball_simulator_agency/game_simulation_agent/tools/SimulateGameTool.py:97-111 | with a zero deviate at its draw, a statistic is `int(max(0, average × ratio))` |
| GameResolution.ZeroDeviatePoints | basketball_simulator_agency/game_simulation_agent/tools/SimulateGameTool.py:97-111 | with a zero deviate at the points draw, a player's points are `int(max(0, ppg × ratio))` |
| GameResolution.ZeroDeviateBox | basketball_simulator_agency/game_simulation_agent/tools/SimulateGameTool.py:91-114 | for a one-player box score with a zero points deviate, the entry keeps its minutes and the team total is that player's points |
| GameResolution.ThirtyMinuteLonePass | basketball_simulator_agency/game_simulation_agent/tools/SimulateGameTool.py:65-114 | a lone 30-mpg player with zero deviates plays 240 minutes and scores the whole part of ppg × 240 / 30 |
| GameResolution.LoneScorersRegulation | basketball_simulator_agency/game_simulation_agent/tools/SimulateGameTool.py:116-118 | with zero deviates, the home regulation pass of a lone 30-mpg, 20-ppg player gives 240 minutes and 160 points, and the away pass of a lone 30-mpg, 18-ppg player, read after the home pass's 7 draws, gives 240 and 144 |
| GameResolution.LoneScorersScenario | basketball_simulator_agency/game_simulation_agent/tools/SimulateGameTool.py:55-126 | with zero deviates, lone 30-mpg players averaging 20 and 18 points each play 240 minutes, score 160 and 144, with no overtime |
| GameResolution.RosterOrderMatters | basketball_simulator_agency/game_simulation_agent/tools/SimulateGameTool.py:72-89 | the allocation depends on roster order: with a deviate of 5 at the first draw only, a 30-mpg player before a 10-mpg one gets 192 of 240 minutes, and after it gets 144 |
| GameResolution.TwoOvertimeDrawsScenario | basketball_simulator_agency/game_simulation_agent/tools/SimulateGameTool.py:62-126 | a 0-0 regulation tie with overtime draws 1 then 4 re-simulates home at 245 minutes and away at 260, reports 4 periods, and keeps the 0-0 overtime tie |
| BoxScoreFormat.Insert | basketball_simulator_agency/game_simulation_agent/tools/SimulateGameTool.py:136 | insertion adds exactly the one line: the result is the input plus x, as a multiset |
| BoxScoreFormat.InsertBounded | basketball_simulator_agency/game_simulation_agent/tools/SimulateGameTool.py:136 | inserting a line scoring at most p among lines scoring at most p keeps every line at most p |
| BoxScoreFormat.InsertSorted | basketball_simulator_agency/game_simulation_agent/tools/SimulateGameTool.py:136 | inserting into a points-descending list keeps it points-descending |
| BoxScoreFormat.ConsKeepsOrder | basketball_simulator_agency/game_simulation_agent/tools/SimulateGameTool.py:136 | a line scoring at least as much as every line of a sorted list can go in front of it |
| BoxScoreFormat.SortByPoints | basketball_simulator_agency/game_simulation_agent/tools/SimulateGameTool.py:136 | the sort's result has points non-increasing and is a permutation of its input |
| BoxScoreFormat.InsertKeepsGroups | basketball_simulator_agency/game_simulation_agent/tools/SimulateGameTool.py:136 | insertion puts the new line first in its points group and leaves every other group unchanged |
| BoxScoreFormat.SortByPointsIsStable | basketball_simulator_agency/game_simulation_agent/tools/SimulateGameTool.py:136 | lines with equal points keep their input order (the sort is stable) |
| BoxScoreFormat.WithPointsMembers | basketball_simulator_agency/game_simulation_agent/tools/SimulateGameTool.py:136 | a points group holds only lines of the list that scored exactly that many points |
| BoxScoreFormat.NonEmptyTogether | basketball_simulator_agency/game_simulation_agent/tools/SimulateGameTool.py:136 | lists with the same points groups are empty together |
| BoxScoreFormat.StableOrderIsUnique | basketball_simulator_agency/game_simulation_agent/tools/SimulateGameTool.py:136 | two points-descending lists with the same points groups are equal |
| BoxScoreFormat.SortByPointsKeepsGroups | basketball_simulator_agency/game_simulation_agent/tools/SimulateGameTool.py:136 | the sort keeps every points group of its input |
| BoxScoreFormat.SameGroupsAsSorted | basketball_simulator_agency/game_simulation_agent/tools/SimulateGameTool.py:136 | any points-descending list with the input's points groups is the sort's result |
| BoxScoreFormat.SortByPointsCharacterized | basketball_simulator_agency/game_simulation_agent/tools/SimulateGameTool.py:136 | a list is the sort's result if and only if it is points-descending and keeps each points group in input order |
| BoxScoreFormat.FormatBoxScore | basketball_simulator_agency/game_simulation_agent/tools/SimulateGameTool.py:128-143 | a four-line header naming the team, then exactly one row per player; the rows are points-descending, a permutation of the box score, and stable |
| SimulateRun.OvertimeSuffix | basketball_simulator_agency/game_simulation_agent/tools/SimulateGameTool.py:172-173 | the suffix is empty exactly when there is no overtime; otherwise it is " (", then `str(periods)` (canonical digits reading back as the count), then "OT)" for one period and "OTs)" otherwise |
| SimulateRun.OvertimeSuffixInjective | basketball_simulator_agency/game_simulation_agent/tools/SimulateGameTool.py:172-173 | different overtime outcomes never print the same suffix: the suffix determines whether there was overtime and, if so, the period count |
| SimulateRun.ScoreLine | basketball_simulator_agency/game_simulation_agent/tools/SimulateGameTool.py:171-174 | the line is "\nFinal Score: ", the home team and a space, `str` of the home score, " - ", `str` of the away score, then a space, the away team, the overtime suffix and a newline; both scores read back from their slices |
| SimulateRun.SplitIsUnique | basketball_simulator_agency/game_simulation_agent/tools/SimulateGameTool.py:171 | a score line splits into home score, away score and closing text in only one way, because canonical scores hold no spaces or dashes |
| SimulateRun.ScoreLineDeterminesGame | basketball_simulator_agency/game_simulation_agent/tools/SimulateGameTool.py:171-174 | for fixed team names, the score line determines both scores, whether there was overtime, and the period count |
| SimulateRun.Run | basketball_simulator_agency/game_simulation_agent/tools/SimulateGameTool.py:162-177 | an empty home roster gives the home message; otherwise an empty away roster gives the away message; a report exactly when both are non-empty, built from one simulated game, with one row per player after each header |
| SimulateRun.RejectionPrecedesSimulation | basketball_simulator_agency/game_simulation_agent/tools/SimulateGameTool.py:162-165 | a rejected run reads no random draws (its output is the same for every source), and an empty home roster makes the away roster irrelevant |

## Left out

- The database side of `run` and `get_team_players`: the PostgreSQL
  connection, the roster query and closing. The query keeps players with
  `minutes_per_game > 0`, ordered by mpg descending. Here the rosters are
  inputs in whatever order the caller gives; for a given source the result
  depends on that order (`RosterOrderMatters`).
- The `except Exception` branch of `run` ("Error simulating game: ..."). It
  catches database failures, and arithmetic on NULL season averages (which
  raises `TypeError`). Season averages are modelled as reals and are never
  NULL.
- The Gaussian and uniform distributions. The draws are arbitrary streams,
  and IEEE-754 float effects are ignored: arithmetic is exact over `real`.
- Row text and the fixed-width f-string padding in `format_box_score`: a
  row is the box-score line it renders.
- `list.sort` works in place, so the caller's box-score list is reordered.
  `run` does not use the lists afterwards, so this is not modelled.
- The shooting percentages are carried in `Player` but never read, as in
  the source.
- The remaining files are scraping, file writing, SQL, Flask routing, agent
  wiring and packaging. They contain none of the engine. The team-name table
  in the daily-games tool is static lookup data.
