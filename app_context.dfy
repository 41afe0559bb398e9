/** The activity-log store (src/context/AppContext.tsx): the list of logs,
    its add and delete operations, and the statistics it recomputes after
    every change of the list. */
module AppContext {
  import opened Wrappers
  import opened Seqs
  import opened Habits

  /** `UserStats`. */
  datatype Stats = Stats(totalImpact: int, completedHabits: nat, streak: nat)

  /** The fields a caller of `addLog` supplies: a log without id and date. */
  datatype LogData = LogData(category: Category, description: string, impact: int)

  /** The mocked streak: nothing logged means no streak, otherwise three
      days plus one for every five logs. */
  function Streak(count: nat): (s: nat)
    ensures s == 0 <==> count == 0
    ensures count > 0 ==> s - 3 == count / 5
  {
    if count > 0 then 3 + count / 5 else 0
  }

  /** More logs never mean a shorter streak. */
  lemma StreakMonotone(n: nat, m: nat)
    requires n <= m
    ensures Streak(n) <= Streak(m)
  {
    assert n / 5 <= m / 5 by {
      var q, r := n / 5, n % 5;
      assert n == 5 * q + r;
      assert m >= 5 * q;
    }
  }

  /** The statistics the effect derives from a list of logs. */
  function ComputeStats(logs: seq<Log>): (s: Stats)
    ensures s.completedHabits == |logs| && s.totalImpact == TotalImpact(logs)
    ensures s.streak == 0 <==> s.completedHabits == 0
    ensures (forall i :: 0 <= i < |logs| ==> 1 <= logs[i].impact <= 10) ==>
      s.completedHabits <= s.totalImpact <= 10 * s.completedHabits
  {
    assert (forall i :: 0 <= i < |logs| ==> 1 <= logs[i].impact <= 10) ==>
      |logs| <= TotalImpact(logs) <= 10 * |logs| by {
      if forall i :: 0 <= i < |logs| ==> 1 <= logs[i].impact <= 10 {
        TotalImpactBounds(logs);
      }
    }
    Stats(TotalImpact(logs), |logs|, Streak(|logs|))
  }

  /** The statistics the store holds before its effect has first run. */
  const PlaceholderStats: Stats := Stats(0, 0, 3)

  /** `INITIAL_LOGS`: a module-level constant of two entries. Each entry's
      date is its own `new Date()`, evaluated once when the module loads;
      those two timestamps are the parameters. */
  function InitialLogs(date1: string, date2: string): (logs: seq<Log>)
    ensures |logs| == 2 && logs[0].id != logs[1].id
    ensures logs[0].date == date1 && logs[1].date == date2
    ensures ComputeStats(logs) == Stats(13, 2, 3)
  {
    var logs := [ Log("1", Waste, "Uso de bolsas reutilizables", 5, date1),
                  Log("2", Transport, "Caminé al trabajo", 8, date2) ];
    assert logs[1..][1..] == [];
    logs
  }

  /** `{ ...logData, id, date }`: the caller's fields with the generated id and date. */
  function NewLog(data: LogData, id: string, date: string): (l: Log)
    ensures l.category == data.category && l.description == data.description
    ensures l.impact == data.impact && l.id == id && l.date == date
  {
    Log(id, data.category, data.description, data.impact, date)
  }

  /** `logs.filter(log => log.id !== id)`. */
  function WithoutId(logs: seq<Log>, id: string): (kept: seq<Log>)
    ensures |kept| <= |logs|
    ensures forall l :: l in kept ==> l in logs && l.id != id
  {
    Filter(logs, (l: Log) => l.id != id)
  }

  /** The logs that carry `id`; ids are random and may repeat. */
  function WithId(logs: seq<Log>, id: string): seq<Log> {
    Filter(logs, (l: Log) => l.id == id)
  }

  const MissingProviderError: string := "useApp must be used within an AppProvider"

  class ActivityStore {
    var logs: seq<Log>
    var stats: Stats

    /** The statistics agree with the logs. */
    ghost predicate Valid()
      reads this
    {
      stats == ComputeStats(logs)
    }

    /** Mounting the provider: `INITIAL_LOGS`, the placeholder statistics,
        and then the first run of the effect. */
    constructor (date1: string, date2: string)
      ensures logs == InitialLogs(date1, date2)
      ensures Valid()
    {
      logs := InitialLogs(date1, date2);
      stats := PlaceholderStats;
      new;
      RecomputeStats();
    }

    /** The effect that runs whenever `logs` changes. */
    method RecomputeStats()
      modifies this
      ensures logs == old(logs)
      ensures Valid()
    {
      var totalImpact := TotalImpact(logs);
      stats := Stats(totalImpact, |logs|, if |logs| > 0 then 3 + |logs| / 5 else 0);
    }

    /** `addLog`: prepends the new entry, then the effect recomputes the statistics. */
    method AddLog(data: LogData, id: string, date: string)
      modifies this
      ensures logs == [NewLog(data, id, date)] + old(logs)
      ensures Valid()
    {
      var newLog := Log(id, data.category, data.description, data.impact, date);
      logs := [newLog] + logs;
      RecomputeStats();
    }

    /** `deleteLog`: drops every entry with the id, then the effect recomputes the statistics. */
    method DeleteLog(id: string)
      modifies this
      ensures logs == WithoutId(old(logs), id)
      ensures Valid()
    {
      logs := Filter(logs, (l: Log) => l.id != id);
      RecomputeStats();
    }
  }

  /** `useApp`: the store of the enclosing provider, or the error thrown when
      there is none. */
  function UseApp(context: Option<ActivityStore>): (r: Result<ActivityStore, string>)
    ensures r.Ok? <==> context.Some?
    ensures r.Ok? ==> r.value == context.value
    ensures r.Err? ==> r.error == MissingProviderError
  {
    match context
    case Some(store) => Ok(store)
    case None => Err(MissingProviderError)
  }

  /** After `addLog` the new entry is first and the earlier entries follow unchanged. */
  lemma AddLogPrepends(logs: seq<Log>, data: LogData, id: string, date: string)
    ensures var after := [NewLog(data, id, date)] + logs;
      |after| == |logs| + 1 && after[0] == NewLog(data, id, date) && after[1..] == logs
  {
  }

  /** Adding one entry adds its impact to the total, one to the count, and
      recomputes the streak for the new count. */
  lemma AddLogStats(logs: seq<Log>, l: Log)
    ensures ComputeStats([l] + logs) ==
      Stats(ComputeStats(logs).totalImpact + l.impact, ComputeStats(logs).completedHabits + 1, Streak(|logs| + 1))
  {
    assert ([l] + logs)[1..] == logs;
  }

  /** `deleteLog` keeps exactly the entries with another id, each as often as
      before, in their original order. */
  lemma DeleteLogKeepsOthers(logs: seq<Log>, id: string)
    ensures forall l :: l in WithoutId(logs, id) <==> l in logs && l.id != id
    ensures forall l :: multiset(WithoutId(logs, id))[l] == if l.id != id then multiset(logs)[l] else 0
    ensures IsSubsequence(WithoutId(logs, id), logs)
  {
    forall l ensures l in WithoutId(logs, id) <==> l in logs && l.id != id {
      FilterMembership(logs, (x: Log) => x.id != id, l);
    }
    forall l ensures multiset(WithoutId(logs, id))[l] == if l.id != id then multiset(logs)[l] else 0 {
      FilterMultiset(logs, (x: Log) => x.id != id, l);
    }
    FilterIsSubsequence(logs, (x: Log) => x.id != id);
  }

  /** `deleteLog` with an id no entry carries changes nothing. */
  lemma DeleteAbsentIsNoOp(logs: seq<Log>, id: string)
    requires forall i :: 0 <= i < |logs| ==> logs[i].id != id
    ensures WithoutId(logs, id) == logs
    ensures ComputeStats(WithoutId(logs, id)) == ComputeStats(logs)
  {
    FilterAll(logs, (x: Log) => x.id != id);
  }

  /** `deleteLog` takes out the count and the impact of exactly the entries
      with that id. */
  lemma DeleteLogStats(logs: seq<Log>, id: string)
    ensures ComputeStats(WithoutId(logs, id)).completedHabits == |logs| - |WithId(logs, id)|
    ensures ComputeStats(WithoutId(logs, id)).totalImpact == TotalImpact(logs) - TotalImpact(WithId(logs, id))
  {
    FilterComplementLength(logs, (x: Log) => x.id == id, (x: Log) => x.id != id);
    TotalImpactSplit(logs, (x: Log) => x.id == id, (x: Log) => x.id != id);
  }

  /** Adding the entry "Cycled to work" with impact 8 to an empty list gives
      one log, a total of 8 and a streak of 3. */
  lemma ScenarioSingleLog(id: string, date: string)
    ensures ComputeStats([NewLog(LogData(Transport, "Cycled to work", 8), id, date)] + []) == Stats(8, 1, 3)
  {
    var after := [NewLog(LogData(Transport, "Cycled to work", 8), id, date)] + [];
    assert after[1..] == [];
    assert TotalImpact(after) == 8;
    assert Streak(1) == 3;
  }

  /** Five entries with impacts 5, 8, 3, 7 and 2 give a total of 25, a count
      of 5 and a streak of 4. */
  lemma ScenarioFiveLogs(ls: seq<Log>)
    requires |ls| == 5
    requires ls[0].impact == 5 && ls[1].impact == 8 && ls[2].impact == 3
    requires ls[3].impact == 7 && ls[4].impact == 2
    ensures ComputeStats(ls) == Stats(25, 5, 4)
  {
    assert ls[4..][1..] == [];
    assert ls[3..][1..] == ls[4..];
    assert ls[2..][1..] == ls[3..];
    assert ls[1..][1..] == ls[2..];
    assert TotalImpact(ls[4..]) == 2;
    assert TotalImpact(ls[3..]) == 9;
    assert TotalImpact(ls[2..]) == 12;
    assert TotalImpact(ls[1..]) == 20;
    assert Streak(5) == 4;
  }
}
