/** The activity-log schema shared by the store, the chart, the log form and
    the dashboard (types.ts): the category enumeration and the log entry. */
module Habits {
  import opened Seqs

  /** `HabitCategory`, in declaration order. */
  datatype Category = Transport | Food | Energy | Waste | Community

  /** The string value of each enumeration member. */
  function CategoryName(c: Category): string {
    match c
    case Transport => "Transport"
    case Food => "Food"
    case Energy => "Energy"
    case Waste => "Waste"
    case Community => "Community"
  }

  /** `Object.values(HabitCategory)`: every category once, in declaration order. */
  const AllCategories: seq<Category> := [Transport, Food, Energy, Waste, Community]

  lemma AllCategoriesComplete(c: Category)
    ensures c in AllCategories
  {
  }

  /** Distinct categories have distinct names, so a name identifies its category. */
  lemma CategoryNameInjective(c: Category, d: Category)
    ensures CategoryName(c) == CategoryName(d) <==> c == d
  {
  }

  /** One activity-log entry. `id` and `date` are opaque: the application
      generates them from a random number and the clock. */
  datatype Log = Log(id: string, category: Category, description: string, impact: int, date: string)

  /** `logs.reduce((acc, log) => acc + log.impact, 0)`. */
  function TotalImpact(logs: seq<Log>): (total: int)
    ensures |logs| == 0 ==> total == 0
    ensures |logs| == 1 ==> total == logs[0].impact
    decreases |logs|
  {
    if |logs| == 0 then 0 else logs[0].impact + TotalImpact(logs[1..])
  }

  /** With every impact within the slider's range 1..10, the sum lies
      between one and ten times the number of entries. */
  lemma {:induction false} TotalImpactBounds(logs: seq<Log>)
    requires forall i :: 0 <= i < |logs| ==> 1 <= logs[i].impact <= 10
    ensures |logs| <= TotalImpact(logs) <= 10 * |logs|
    decreases |logs|
  {
    if |logs| > 0 {
      assert forall i :: 0 <= i < |logs[1..]| ==> logs[1..][i] == logs[i + 1];
      TotalImpactBounds(logs[1..]);
    }
  }

  /** The sum over a concatenation is the sum of the sums. */
  lemma {:induction false} TotalImpactConcat(a: seq<Log>, b: seq<Log>)
    ensures TotalImpact(a + b) == TotalImpact(a) + TotalImpact(b)
    decreases |a|
  {
    if |a| == 0 {
      assert a + b == b;
    } else {
      assert (a + b)[1..] == a[1..] + b;
      TotalImpactConcat(a[1..], b);
    }
  }

  /** Splitting the entries by a predicate `p` and its negation `q` splits the sum. */
  lemma {:induction false} TotalImpactSplit(logs: seq<Log>, p: Log -> bool, q: Log -> bool)
    requires forall l :: q(l) == !p(l)
    ensures TotalImpact(logs) == TotalImpact(Filter(logs, p)) + TotalImpact(Filter(logs, q))
    decreases |logs|
  {
    if |logs| > 0 {
      TotalImpactSplit(logs[1..], p, q);
      if p(logs[0]) {
        assert Filter(logs, p) == [logs[0]] + Filter(logs[1..], p);
        assert ([logs[0]] + Filter(logs[1..], p))[1..] == Filter(logs[1..], p);
      } else {
        assert Filter(logs, q) == [logs[0]] + Filter(logs[1..], q);
        assert ([logs[0]] + Filter(logs[1..], q))[1..] == Filter(logs[1..], q);
      }
    }
  }

  /** The sum does not depend on the order of the entries. */
  lemma {:induction false} TotalImpactPermutation(a: seq<Log>, b: seq<Log>)
    requires multiset(a) == multiset(b)
    ensures TotalImpact(a) == TotalImpact(b)
    decreases |a|
  {
    if |a| == 0 {
      assert |b| == |multiset(b)| == 0;
    } else {
      var x := a[0];
      assert x in multiset(b);
      var i :| 0 <= i < |b| && b[i] == x;
      RemoveAt(b, i);
      assert a == [x] + a[1..];
      assert multiset(a[1..]) == multiset(a) - multiset{x};
      TotalImpactPermutation(a[1..], b[..i] + b[i + 1..]);
    }
  }

  /** Taking out the entry at `i` takes its impact out of the sum and the
      entry out of the multiset. */
  lemma RemoveAt(b: seq<Log>, i: nat)
    requires i < |b|
    ensures TotalImpact(b) == b[i].impact + TotalImpact(b[..i] + b[i + 1..])
    ensures multiset(b[..i] + b[i + 1..]) == multiset(b) - multiset{b[i]}
  {
    var pre, rest := b[..i], b[i..];
    assert b == pre + rest;
    assert rest == [b[i]] + b[i + 1..];
    RemoveHead(pre, rest);
  }

  /** Taking the first entry of `rest` out of `pre + rest`. */
  lemma RemoveHead(pre: seq<Log>, rest: seq<Log>)
    requires |rest| > 0
    ensures TotalImpact(pre + rest) == rest[0].impact + TotalImpact(pre + rest[1..])
    ensures multiset(pre + rest[1..]) == multiset(pre + rest) - multiset{rest[0]}
  {
    TotalImpactConcat(pre, rest);
    TotalImpactConcat(pre, rest[1..]);
    assert rest == [rest[0]] + rest[1..];
  }
}
