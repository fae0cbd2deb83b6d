/** `format_box_score`: a stable sort by points, highest first, under a
    four-line header. Row text and column padding are kept abstract. */
module BoxScoreFormat {
  import opened Roster

  function Points(line: BoxLine): int
  {
    line.counts.points
  }

  /** Points never increase down the list. */
  predicate ByPointsDescending(s: seq<BoxLine>)
  {
    forall i, j :: 0 <= i < j < |s| ==> Points(s[i]) >= Points(s[j])
  }

  /** The lines scoring exactly v points, in their order in s. */
  function WithPoints(s: seq<BoxLine>, v: int): seq<BoxLine>
  {
    if |s| == 0 then []
    else (if Points(s[0]) == v then [s[0]] else []) + WithPoints(s[1..], v)
  }

  /** a and b hold the same lines in each points group, in the same order. */
  ghost predicate SameGroups(a: seq<BoxLine>, b: seq<BoxLine>)
  {
    forall v :: WithPoints(a, v) == WithPoints(b, v)
  }

  /** No line of s scored more than p. */
  predicate AllAtMost(s: seq<BoxLine>, p: int)
  {
    forall i :: 0 <= i < |s| ==> Points(s[i]) <= p
  }

  /** Putting a line in front of a sorted list that scored no more than it
      keeps the list sorted. */
  lemma ConsKeepsOrder(x: BoxLine, s: seq<BoxLine>)
    requires ByPointsDescending(s)
    requires AllAtMost(s, Points(x))
    ensures ByPointsDescending([x] + s)
  {
    forall i, j | 0 <= i < j < |s| + 1
      ensures Points(([x] + s)[i]) >= Points(([x] + s)[j])
    {
      assert ([x] + s)[j] == s[j - 1];
      if i > 0 {
        assert ([x] + s)[i] == s[i - 1];
      }
    }
  }

  /** Places x in front of the first line that scored no more than x. */
  function Insert(x: BoxLine, s: seq<BoxLine>): (r: seq<BoxLine>)
    ensures |r| == |s| + 1
    ensures multiset(r) == multiset(s) + multiset{x}
  {
    if |s| == 0 || Points(x) >= Points(s[0]) then [x] + s
    else
      assert s == [s[0]] + s[1..];
      [s[0]] + Insert(x, s[1..])
  }

  /** Inserting a line that scored at most p into lines that all scored at
      most p keeps every line at most p. */
  lemma {:induction false} InsertBounded(x: BoxLine, s: seq<BoxLine>, p: int)
    requires AllAtMost(s, p) && Points(x) <= p
    ensures AllAtMost(Insert(x, s), p)
  {
    if |s| == 0 || Points(x) >= Points(s[0]) {
    } else {
      InsertBounded(x, s[1..], p);
      var rest := Insert(x, s[1..]);
      assert forall i :: 1 <= i < |rest| + 1 ==> ([s[0]] + rest)[i] == rest[i - 1];
    }
  }

  /** Insertion keeps a points-descending list points-descending. */
  lemma {:induction false} InsertSorted(x: BoxLine, s: seq<BoxLine>)
    requires ByPointsDescending(s)
    ensures ByPointsDescending(Insert(x, s))
  {
    if |s| == 0 || Points(x) >= Points(s[0]) {
      assert AllAtMost(s, Points(x));
      ConsKeepsOrder(x, s);
    } else {
      var rest := Insert(x, s[1..]);
      InsertSorted(x, s[1..]);
      assert AllAtMost(s[1..], Points(s[0]));
      InsertBounded(x, s[1..], Points(s[0]));
      ConsKeepsOrder(s[0], rest);
    }
  }

  /** `sort(key=points, reverse=True)`: Python's sort is stable, and stays
      stable with `reverse`, so lines with equal points keep their input
      order. */
  function SortByPoints(s: seq<BoxLine>): (r: seq<BoxLine>)
    ensures |r| == |s|
    ensures ByPointsDescending(r)
    ensures multiset(r) == multiset(s)
  {
    if |s| == 0 then []
    else
      assert s == [s[0]] + s[1..];
      InsertSorted(s[0], SortByPoints(s[1..]));
      Insert(s[0], SortByPoints(s[1..]))
  }

  /** Inserting x adds it to its own points group, ahead of the group's
      other members, and leaves every other group alone. */
  lemma {:induction false} InsertKeepsGroups(x: BoxLine, s: seq<BoxLine>, v: int)
    ensures WithPoints(Insert(x, s), v) == (if Points(x) == v then [x] else []) + WithPoints(s, v)
  {
    if |s| == 0 || Points(x) >= Points(s[0]) {
      assert ([x] + s)[1..] == s;
    } else {
      var rest := Insert(x, s[1..]);
      InsertKeepsGroups(x, s[1..], v);
      assert ([s[0]] + rest)[1..] == rest;
      var head := if Points(s[0]) == v then [s[0]] else [];
      assert WithPoints([s[0]] + rest, v) == head + WithPoints(rest, v);
      assert WithPoints(s, v) == head + WithPoints(s[1..], v);
    }
  }

  /** Every points group keeps its input order through the sort. */
  lemma {:induction false} SortByPointsIsStable(s: seq<BoxLine>, v: int)
    ensures WithPoints(SortByPoints(s), v) == WithPoints(s, v)
  {
    if |s| > 0 {
      SortByPointsIsStable(s[1..], v);
      InsertKeepsGroups(s[0], SortByPoints(s[1..]), v);
    }
  }

  lemma {:induction false} WithPointsMembers(s: seq<BoxLine>, v: int, y: BoxLine)
    requires y in WithPoints(s, v)
    ensures y in s && Points(y) == v
  {
    if Points(s[0]) == v && y == s[0] {
    } else {
      if Points(s[0]) == v {
        assert WithPoints(s, v) == [s[0]] + WithPoints(s[1..], v);
      } else {
        assert WithPoints(s, v) == WithPoints(s[1..], v);
      }
      WithPointsMembers(s[1..], v, y);
    }
  }

  /** Lists with the same points groups are empty together. */
  lemma NonEmptyTogether(a: seq<BoxLine>, b: seq<BoxLine>)
    requires SameGroups(a, b)
    ensures |a| > 0 ==> |b| > 0
  {
    if |a| > 0 {
      assert WithPoints(a, Points(a[0])) == [a[0]] + WithPoints(a[1..], Points(a[0]));
    }
  }

  /** Two lists sorted by points whose points groups agree are the same
      list: a stable descending order is unique. */
  lemma {:induction false} StableOrderIsUnique(a: seq<BoxLine>, b: seq<BoxLine>)
    requires ByPointsDescending(a) && ByPointsDescending(b)
    requires SameGroups(a, b)
    ensures a == b
  {
    NonEmptyTogether(a, b);
    NonEmptyTogether(b, a);
    if |a| == 0 {
    } else {
      var ka := Points(a[0]);
      var kb := Points(b[0]);
      assert b[0] in WithPoints(a, kb);
      WithPointsMembers(a, kb, b[0]);
      assert a[0] in WithPoints(b, ka);
      WithPointsMembers(b, ka, a[0]);
      assert ka == kb;
      assert a[0] == b[0] by {
        assert WithPoints(a, ka)[0] == a[0];
        assert WithPoints(b, ka)[0] == b[0];
      }
      forall v
        ensures WithPoints(a[1..], v) == WithPoints(b[1..], v)
      {
        if v == ka {
          assert WithPoints(a, v) == [a[0]] + WithPoints(a[1..], v);
          assert WithPoints(b, v) == [b[0]] + WithPoints(b[1..], v);
          assert WithPoints(a[1..], v) == WithPoints(a, v)[1..];
          assert WithPoints(b[1..], v) == WithPoints(b, v)[1..];
        } else {
          assert WithPoints(a, v) == WithPoints(a[1..], v);
          assert WithPoints(b, v) == WithPoints(b[1..], v);
        }
      }
      StableOrderIsUnique(a[1..], b[1..]);
      assert a == [a[0]] + a[1..];
      assert b == [b[0]] + b[1..];
    }
  }

  /** The sort's result is exactly the list that is ordered by points and
      keeps every points group in input order. */
  lemma SortByPointsCharacterized(s: seq<BoxLine>, t: seq<BoxLine>)
    ensures t == SortByPoints(s) <==> ByPointsDescending(t) && SameGroups(t, s)
  {
    if t == SortByPoints(s) {
      SortByPointsKeepsGroups(s);
    }
    if ByPointsDescending(t) && SameGroups(t, s) {
      SameGroupsAsSorted(s, t);
    }
  }

  lemma SameGroupsAsSorted(s: seq<BoxLine>, t: seq<BoxLine>)
    requires ByPointsDescending(t)
    requires SameGroups(t, s)
    ensures t == SortByPoints(s)
  {
    var r := SortByPoints(s);
    SortByPointsKeepsGroups(s);
    assert SameGroups(t, r);
    StableOrderIsUnique(t, r);
  }

  lemma SortByPointsKeepsGroups(s: seq<BoxLine>)
    ensures SameGroups(SortByPoints(s), s)
  {
    forall v
      ensures WithPoints(SortByPoints(s), v) == WithPoints(s, v)
    {
      SortByPointsIsStable(s, v);
    }
  }

  /** The lines of the formatted text; each player row is kept abstract as
      the box-score line it renders. */
  datatype TextLine =
    | Title(team: string)   // an empty line, then "<team> Box Score:"
    | Rule                  // 80 dashes
    | ColumnHeadings        // Name POS MIN PTS REB AST STL BLK TO
    | Row(line: BoxLine)

  const HeaderLines: nat := 4

  function Header(team: string): seq<TextLine>
  {
    [Title(team), Rule, ColumnHeadings, Rule]
  }

  /** The player rows of a formatted box score: every line after the
      header. */
  function PlayerRows(text: seq<TextLine>): (rows: seq<BoxLine>)
    requires HeaderLines <= |text|
    requires forall i :: HeaderLines <= i < |text| ==> text[i].Row?
    ensures |rows| == |text| - HeaderLines
  {
    seq(|text| - HeaderLines, i requires 0 <= i < |text| - HeaderLines => text[HeaderLines + i].line)
  }

  /** The box score for display: the header, then one row per player in the
      sorted order. */
  function FormatBoxScore(team: string, box: seq<BoxLine>): (text: seq<TextLine>)
    ensures |text| == HeaderLines + |box|
    ensures text[..HeaderLines] == Header(team)
    ensures forall i :: HeaderLines <= i < |text| ==> text[i].Row?
    ensures
      var rows := PlayerRows(text);
      && ByPointsDescending(rows)
      && multiset(rows) == multiset(box)
      && SameGroups(rows, box)
  {
    var sorted := SortByPoints(box);
    var text := Header(team) + seq(|sorted|, i requires 0 <= i < |sorted| => Row(sorted[i]));
    assert PlayerRows(text) == sorted;
    SortByPointsKeepsGroups(box);
    text
  }
}
