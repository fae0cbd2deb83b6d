/** `run` without its database connection: reject an empty roster, simulate,
    and assemble the final-score line and the two formatted box scores. */
module SimulateRun {
  import opened Decimal
  import opened Draws
  import opened Roster
  import opened GameResolution
  import opened BoxScoreFormat

  function HomeMissing(team: string): string
  {
    "No players found for home team: " + team
  }

  function AwayMissing(team: string): string
  {
    "No players found for away team: " + team
  }

  /** What follows the away team's name on the final-score line:
      " (1OT)" for one period, " (<n>OTs)" otherwise, nothing without
      overtime. The count is written as `str` writes it and can be read
      back from the text. */
  function OvertimeSuffix(isOvertime: bool, periods: nat): (s: string)
    ensures s == "" <==> !isOvertime
    ensures isOvertime ==>
      var tail := if periods == 1 then "OT)" else "OTs)";
      && 2 + |tail| < |s|
      && s[..2] == " ("
      && s[|s| - |tail|..] == tail
      && Canonical(s[2..|s| - |tail|])
      && DecimalValue(s[2..|s| - |tail|]) == periods
  {
    if !isOvertime then ""
    else
      var digits := NatToDecimal(periods);
      var tail := if periods == 1 then "OT)" else "OTs)";
      var s := " (" + digits + tail;
      assert s[2..|s| - |tail|] == digits;
      s
  }

  /** The suffix tells whether there was overtime and, if so, how many
      periods were reported. */
  lemma OvertimeSuffixInjective(o1: bool, p1: nat, o2: bool, p2: nat)
    requires OvertimeSuffix(o1, p1) == OvertimeSuffix(o2, p2)
    ensures o1 == o2
    ensures o1 ==> p1 == p2
  {
    if o1 {
      var s := OvertimeSuffix(o1, p1);
      var tail1 := if p1 == 1 then "OT)" else "OTs)";
      var tail2 := if p2 == 1 then "OT)" else "OTs)";
      assert s[|s| - 2] == tail1[|tail1| - 2] == tail2[|tail2| - 2];
      assert tail1 == tail2;
    }
  }

  /** `line` is `prefix`, a score written in decimal ending at `k`, " - ",
      a second score in decimal ending at `q`, then `closing`. */
  predicate ReadsBack(line: string, prefix: string, k: int, q: int, closing: string, home: nat, away: nat)
  {
    && |prefix| < k && k + 3 < q && q + |closing| == |line|
    && line[..|prefix|] == prefix
    && Canonical(line[|prefix|..k]) && DecimalValue(line[|prefix|..k]) == home
    && line[k..k + 3] == " - "
    && Canonical(line[k + 3..q]) && DecimalValue(line[k + 3..q]) == away
    && line[q..] == closing
  }

  /** The slices of `prefix + home + " - " + away + closing`. */
  lemma LineSlices(prefix: string, home: string, away: string, closing: string)
    ensures
      var line := prefix + (home + (" - " + (away + closing)));
      var k := |prefix| + |home|;
      && k + 3 + |away| + |closing| == |line|
      && line[..|prefix|] == prefix
      && line[|prefix|..k] == home
      && line[k..k + 3] == " - "
      && line[k + 3..|line| - |closing|] == away
      && line[|line| - |closing|..] == closing
  {
    var rest := home + (" - " + (away + closing));
    var line := prefix + rest;
    var k := |prefix| + |home|;
    assert line[|prefix|..] == rest;
    assert line[|prefix|..k] == rest[..|home|];
    assert line[k..] == " - " + (away + closing);
    assert line[k + 3..] == away + closing;
    assert line[k + 3..|line| - |closing|] == (away + closing)[..|away|];
  }

  /** Writing two canonical scores between a prefix and a closing text gives
      a line that reads back as those scores. */
  lemma LineShape(prefix: string, home: string, away: string, closing: string, h: nat, a: nat)
    requires Canonical(home) && DecimalValue(home) == h
    requires Canonical(away) && DecimalValue(away) == a
    ensures
      var line := prefix + (home + (" - " + (away + closing)));
      ReadsBack(line, prefix, |prefix| + |home|, |line| - |closing|, closing, h, a)
  {
    LineSlices(prefix, home, away, closing);
    var line := prefix + (home + (" - " + (away + closing)));
    var k := |prefix| + |home|;
    assert line[|prefix|..k] == home;
    assert line[k + 3..|line| - |closing|] == away;
  }

  /** Equal closing texts after the same team name carry the same suffix. */
  lemma ClosingDeterminesSuffix(awayTeam: string, s1: string, s2: string)
    requires " " + awayTeam + s1 + "\n" == " " + awayTeam + s2 + "\n"
    ensures s1 == s2
  {
    var c := " " + awayTeam + s1 + "\n";
    assert s1 == c[|awayTeam| + 1..|c| - 1];
    assert s2 == c[|awayTeam| + 1..|c| - 1];
  }

  /** The characters of a canonical slice are digits. */
  lemma DigitsOfSlice(line: string, a: int, b: int)
    requires 0 <= a <= b <= |line|
    requires Canonical(line[a..b])
    ensures forall i :: a <= i < b ==> IsDigit(line[i])
  {
    assert forall i :: a <= i < b ==> line[i] == line[a..b][i - a];
  }

  /** Two spaces ending digit runs that start at the same place are the
      same space. */
  lemma SameDigitRun(line: string, p: int, k1: int, k2: int)
    requires 0 <= p <= k1 < |line| && p <= k2 < |line|
    requires Canonical(line[p..k1]) && Canonical(line[p..k2])
    requires line[k1] == ' ' && line[k2] == ' '
    ensures k1 == k2
  {
    DigitsOfSlice(line, p, k1);
    DigitsOfSlice(line, p, k2);
  }

  /** What follows the home score's digits on the final-score line: the
      away team's name, the overtime suffix and the closing newline. */
  function Closing(awayTeam: string, g: GameResult): (c: string)
    ensures 0 < |c| && c[0] == ' '
  {
    " " + awayTeam + OvertimeSuffix(g.isOvertime, g.overtimePeriods) + "\n"
  }

  /** "\nFinal Score: <home> <h> - <a> <away><suffix>\n": the home team's
      name, its score, " - ", the away score, then the away team's name and
      the overtime suffix, the scores written as `str` writes them. */
  function ScoreLine(homeTeam: string, awayTeam: string, g: GameResult): (line: string)
    ensures
      var prefix := "\nFinal Score: " + homeTeam + " ";
      var closing := Closing(awayTeam, g);
      var k := |prefix| + |NatToDecimal(g.homeScore)|;
      ReadsBack(line, prefix, k, |line| - |closing|, closing, g.homeScore, g.awayScore)
  {
    var prefix := "\nFinal Score: " + homeTeam + " ";
    var closing := Closing(awayTeam, g);
    var home := NatToDecimal(g.homeScore);
    var away := NatToDecimal(g.awayScore);
    LineShape(prefix, home, away, closing, g.homeScore, g.awayScore);
    prefix + (home + (" - " + (away + closing)))
  }

  /** Two canonical scores written between the same prefix and closing
      texts that start with a space split the line in one way only. */
  lemma SplitIsUnique(prefix: string, h1: string, a1: string, c1: string, h2: string, a2: string, c2: string)
    requires Canonical(h1) && Canonical(a1) && Canonical(h2) && Canonical(a2)
    requires 0 < |c1| && c1[0] == ' ' && 0 < |c2| && c2[0] == ' '
    requires prefix + (h1 + (" - " + (a1 + c1))) == prefix + (h2 + (" - " + (a2 + c2)))
    ensures h1 == h2 && a1 == a2 && c1 == c2
  {
    var line := prefix + (h1 + (" - " + (a1 + c1)));
    LineSlices(prefix, h1, a1, c1);
    LineSlices(prefix, h2, a2, c2);
    var k1 := |prefix| + |h1|;
    var k2 := |prefix| + |h2|;
    assert line[k1] == line[k1..k1 + 3][0] && line[k2] == line[k2..k2 + 3][0];
    SameDigitRun(line, |prefix|, k1, k2);
    var q1 := |line| - |c1|;
    var q2 := |line| - |c2|;
    assert line[q1] == line[q1..][0] && line[q2] == line[q2..][0];
    SameDigitRun(line, k1 + 3, q1, q2);
  }

  /** The final-score line can be read back: for the same two teams, equal
      lines come from games with the same scores, the same overtime flag
      and, in overtime, the same reported count. */
  lemma ScoreLineDeterminesGame(homeTeam: string, awayTeam: string, g1: GameResult, g2: GameResult)
    requires ScoreLine(homeTeam, awayTeam, g1) == ScoreLine(homeTeam, awayTeam, g2)
    ensures g1.homeScore == g2.homeScore && g1.awayScore == g2.awayScore
    ensures g1.isOvertime == g2.isOvertime
    ensures g1.isOvertime ==> g1.overtimePeriods == g2.overtimePeriods
  {
    var prefix := "\nFinal Score: " + homeTeam + " ";
    SplitIsUnique(prefix, NatToDecimal(g1.homeScore), NatToDecimal(g1.awayScore), Closing(awayTeam, g1),
                  NatToDecimal(g2.homeScore), NatToDecimal(g2.awayScore), Closing(awayTeam, g2));
    NatToDecimalInjective(g1.homeScore, g2.homeScore);
    NatToDecimalInjective(g1.awayScore, g2.awayScore);
    ClosingDeterminesSuffix(awayTeam, OvertimeSuffix(g1.isOvertime, g1.overtimePeriods), OvertimeSuffix(g2.isOvertime, g2.overtimePeriods));
    OvertimeSuffixInjective(g1.isOvertime, g1.overtimePeriods, g2.isOvertime, g2.overtimePeriods);
  }

  /** What `run` returns: a message, or the score line followed by the home
      and the away box scores. */
  datatype RunOutput =
    | Message(text: string)
    | Report(scoreLine: string, homeText: seq<TextLine>, awayText: seq<TextLine>)

  /** The home roster is checked first, then the away roster, and only then
      is anything simulated; the generator starts at position 0. */
  function Run(homeTeam: string, awayTeam: string, home: seq<Player>, away: seq<Player>, src: Source)
    : (out: RunOutput)
    ensures |home| == 0 ==> out == Message(HomeMissing(homeTeam))
    ensures 0 < |home| && |away| == 0 ==> out == Message(AwayMissing(awayTeam))
    ensures out.Report? <==> 0 < |home| && 0 < |away|
    ensures out.Report? ==>
      var g := SimulateGame(home, away, src, 0);
      && out.scoreLine == ScoreLine(homeTeam, awayTeam, g)
      && out.homeText == FormatBoxScore(homeTeam, g.homeBox)
      && out.awayText == FormatBoxScore(awayTeam, g.awayBox)
      && |out.homeText| == HeaderLines + |home|
      && |out.awayText| == HeaderLines + |away|
  {
    if |home| == 0 then Message(HomeMissing(homeTeam))
    else if |away| == 0 then Message(AwayMissing(awayTeam))
    else
      var g := SimulateGame(home, away, src, 0);
      Report(ScoreLine(homeTeam, awayTeam, g),
             FormatBoxScore(homeTeam, g.homeBox),
             FormatBoxScore(awayTeam, g.awayBox))
  }

  /** A rejected run reads no draws: its output is the same for every
      random source, and with no home players it ignores the away roster. */
  lemma RejectionPrecedesSimulation(homeTeam: string, awayTeam: string, home: seq<Player>,
                                    away: seq<Player>, away': seq<Player>, src: Source, src': Source)
    requires |home| == 0 || |away| == 0
    requires |home| == 0 || away' == away
    ensures Run(homeTeam, awayTeam, home, away, src) == Run(homeTeam, awayTeam, home, away', src')
    ensures Run(homeTeam, awayTeam, home, away, src).Message?
  {
  }
}
