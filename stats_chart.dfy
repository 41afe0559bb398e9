/** The per-category aggregation behind the impact chart
    (src/components/StatsChart.tsx): one row per category, in the
    enumeration's order, with the summed impact and a colour. */
module StatsChart {
  import opened Seqs
  import opened Habits

  /** `COLORS`. */
  const Colors: seq<string> := ["#10b981", "#3b82f6", "#f59e0b", "#ef4444", "#8b5cf6"]

  /** One bar of the chart: `{ name, score, fill }`. */
  datatype Row = Row(name: string, score: int, fill: string)

  /** `logs.filter(l => l.category === cat).reduce((acc, curr) => acc + curr.impact, 0)`. */
  function CategoryScore(logs: seq<Log>, cat: Category): (score: int)
    ensures (forall i :: 0 <= i < |logs| ==> logs[i].category != cat) ==> score == 0
    ensures (forall i :: 0 <= i < |logs| ==> logs[i].category == cat) ==> score == TotalImpact(logs)
  {
    var p := (l: Log) => l.category == cat;
    assert (forall i :: 0 <= i < |logs| ==> !p(logs[i])) ==> Filter(logs, p) == [] by {
      if forall i :: 0 <= i < |logs| ==> !p(logs[i]) {
        FilterNone(logs, p);
      }
    }
    assert (forall i :: 0 <= i < |logs| ==> p(logs[i])) ==> Filter(logs, p) == logs by {
      if forall i :: 0 <= i < |logs| ==> p(logs[i]) {
        FilterAll(logs, p);
      }
    }
    TotalImpact(Filter(logs, p))
  }

  /** `data`: the categories mapped, with their index, to rows. */
  function ChartData(logs: seq<Log>): (rows: seq<Row>)
    ensures |rows| == |AllCategories| == 5
    ensures rows[0].name == "Transport" && rows[1].name == "Food" && rows[2].name == "Energy"
    ensures rows[3].name == "Waste" && rows[4].name == "Community"
  {
    seq(|AllCategories|, i requires 0 <= i < |AllCategories| =>
      var cat := AllCategories[i];
      Row(CategoryName(cat), CategoryScore(logs, cat), Colors[i % |Colors|]))
  }

  /** `Σ rows[i].score`. */
  function SumScores(rows: seq<Row>): int
    decreases |rows|
  {
    if |rows| == 0 then 0 else rows[0].score + SumScores(rows[1..])
  }

  /** The row at index `i` belongs to the `i`-th category, carries the sum of
      the impacts of that category's logs, and the `i`-th colour, cycling. */
  lemma ChartRow(logs: seq<Log>, i: nat)
    requires i < |AllCategories|
    ensures ChartData(logs)[i].name == CategoryName(AllCategories[i])
    ensures ChartData(logs)[i].score == CategoryScore(logs, AllCategories[i])
    ensures ChartData(logs)[i].fill == Colors[i % 5]
  {
  }

  /** A category without logs gets a score of 0. */
  lemma EmptyCategoryScoresZero(logs: seq<Log>, i: nat)
    requires i < |AllCategories|
    requires forall j :: 0 <= j < |logs| ==> logs[j].category != AllCategories[i]
    ensures ChartData(logs)[i].score == 0
  {
    FilterNone(logs, (l: Log) => l.category == AllCategories[i]);
  }

  /** The chart does not depend on the order of the logs. */
  lemma ChartOrderIndependent(a: seq<Log>, b: seq<Log>)
    requires multiset(a) == multiset(b)
    ensures ChartData(a) == ChartData(b)
  {
    forall c: Category ensures CategoryScore(a, c) == CategoryScore(b, c) {
      var p := (l: Log) => l.category == c;
      FilterPermutation(a, b, p);
      TotalImpactPermutation(Filter(a, p), Filter(b, p));
    }
  }

  /** Unfolding one log off the front of the list. */
  lemma CategoryScoreCons(l: Log, rest: seq<Log>, c: Category)
    ensures CategoryScore([l] + rest, c) == (if l.category == c then l.impact else 0) + CategoryScore(rest, c)
  {
    var p := (x: Log) => x.category == c;
    assert ([l] + rest)[1..] == rest;
    if p(l) {
      assert ([l] + Filter(rest, p))[1..] == Filter(rest, p);
    }
  }

  /** Every log is in exactly one category, so the category scores add up
      to the total impact. */
  lemma {:induction false} CategoryScoresSum(logs: seq<Log>)
    ensures CategoryScore(logs, Transport) + CategoryScore(logs, Food) + CategoryScore(logs, Energy)
      + CategoryScore(logs, Waste) + CategoryScore(logs, Community) == TotalImpact(logs)
    decreases |logs|
  {
    if |logs| > 0 {
      var l, rest := logs[0], logs[1..];
      assert logs == [l] + rest;
      CategoryScoresSum(rest);
      CategoryScoreCons(l, rest, Transport);
      CategoryScoreCons(l, rest, Food);
      CategoryScoreCons(l, rest, Energy);
      CategoryScoreCons(l, rest, Waste);
      CategoryScoreCons(l, rest, Community);
    }
  }

  /** The bars of the chart add up to the total impact of all logs. */
  lemma ChartSumsToTotal(logs: seq<Log>)
    ensures SumScores(ChartData(logs)) == TotalImpact(logs)
  {
    var rows := ChartData(logs);
    var s0, s1, s2, s3, s4 := rows[0].score, rows[1].score, rows[2].score, rows[3].score, rows[4].score;
    assert SumScores(rows[4..]) == s4 by { assert rows[4..][1..] == []; }
    assert SumScores(rows[3..]) == s3 + s4 by { assert rows[3..][1..] == rows[4..]; }
    assert SumScores(rows[2..]) == s2 + s3 + s4 by { assert rows[2..][1..] == rows[3..]; }
    assert SumScores(rows[1..]) == s1 + s2 + s3 + s4 by { assert rows[1..][1..] == rows[2..]; }
    assert SumScores(rows) == s0 + s1 + s2 + s3 + s4;
    ChartRow(logs, 0);
    ChartRow(logs, 1);
    ChartRow(logs, 2);
    ChartRow(logs, 3);
    ChartRow(logs, 4);
    CategoryScoresSum(logs);
  }
}
