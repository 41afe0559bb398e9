/** The dashboard (pages/Dashboard.tsx): which logs go to the advisor and
    which are listed, and the advice and loading state around the advice
    request. */
module Dashboard {
  import opened Wrappers
  import opened Seqs
  import opened Habits
  import opened AppContext
  import opened GeminiService

  /** `logs.slice(0, 10)`: the logs sent to the advisor. */
  const AdvisorBatchSize: nat := 10
  /** `logs.slice(0, 5)`: the logs listed under "Recent Activity". */
  const RecentListSize: nat := 5

  const EmptyActivityText: string := "No activities logged yet. Start today!"

  function Min(a: nat, b: nat): nat {
    if a < b then a else b
  }

  /** The logs `handleGetAdvice` passes to the service. */
  function AdvisorBatch(logs: seq<Log>): (batch: seq<Log>)
    ensures |batch| == Min(AdvisorBatchSize, |logs|)
    ensures forall i :: 0 <= i < |batch| ==> batch[i] == logs[i]
  {
    Take(logs, AdvisorBatchSize)
  }

  /** The "Recent Activity" panel: the empty-state text, or rows. */
  datatype RecentView = EmptyState(message: string) | Rows(logs: seq<Log>)

  function RecentActivity(logs: seq<Log>): (view: RecentView)
    ensures view.EmptyState? <==> |logs| == 0
    ensures view.EmptyState? ==> view.message == EmptyActivityText
    ensures view.Rows? ==> |view.logs| == Min(RecentListSize, |logs|) && view.logs <= logs
  {
    if |logs| == 0 then EmptyState(EmptyActivityText) else Rows(Take(logs, RecentListSize))
  }

  /** `advice ? <advice box> : null`: the text shown, if any; an empty text
      is falsy and shows nothing. */
  function ShownAdvice(advice: Option<string>): (shown: Option<string>)
    ensures shown.Some? <==> advice.Some? && advice.value != ""
    ensures shown.Some? ==> shown.value == advice.value
  {
    match advice
    case Some(text) => if text != "" then Some(text) else None
    case None => None
  }

  /** The listed logs are the first of the logs sent to the advisor. */
  lemma RecentWithinBatch(logs: seq<Log>)
    requires |logs| > 0
    ensures RecentActivity(logs).logs <= AdvisorBatch(logs)
  {
  }

  /** Since the store prepends, a log just added is the first one sent to the
      advisor and the first one listed, followed by the most recent earlier ones. */
  lemma NewestFirst(logs: seq<Log>, data: LogData, id: string, date: string)
    ensures var after := [NewLog(data, id, date)] + logs;
      && AdvisorBatch(after) == [NewLog(data, id, date)] + Take(logs, AdvisorBatchSize - 1)
      && RecentActivity(after) == Rows([NewLog(data, id, date)] + Take(logs, RecentListSize - 1))
  {
    var after := [NewLog(data, id, date)] + logs;
    if |logs| >= AdvisorBatchSize {
      assert after[..AdvisorBatchSize] == [after[0]] + logs[..AdvisorBatchSize - 1];
    }
    if |logs| >= RecentListSize {
      assert after[..RecentListSize] == [after[0]] + logs[..RecentListSize - 1];
    }
  }

  class DashboardPage {
    var advice: Option<string>
    var loadingAdvice: bool

    constructor ()
      ensures advice == None && !loadingAdvice
    {
      advice := None;
      loadingAdvice := false;
    }

    /** The advice button is disabled while a request is outstanding. */
    function AdviceButtonDisabled(): (disabled: bool)
      reads this
      ensures disabled <==> loadingAdvice
    {
      loadingAdvice
    }

    /** `handleGetAdvice` up to its `await`: sets the loading flag and picks
        the logs to send. */
    method BeginAdviceRequest(logs: seq<Log>) returns (batch: seq<Log>)
      modifies this
      ensures loadingAdvice && AdviceButtonDisabled() && advice == old(advice)
      ensures batch == AdvisorBatch(logs)
    {
      loadingAdvice := true;
      batch := Take(logs, AdvisorBatchSize);
    }

    /** `handleGetAdvice` after its `await`: stores the result and clears the flag. */
    method FinishAdviceRequest(result: string)
      modifies this
      ensures advice == Some(result) && !loadingAdvice && !AdviceButtonDisabled()
    {
      advice := Some(result);
      loadingAdvice := false;
    }

    /** The whole of `handleGetAdvice`, with the service's model as a
        parameter. `loadingWhileWaiting` is the flag while the request is
        outstanding. */
    method HandleGetAdvice(logs: seq<Log>, model: string -> ModelOutcome) returns (loadingWhileWaiting: bool)
      modifies this
      ensures loadingWhileWaiting && !loadingAdvice && !AdviceButtonDisabled()
      ensures advice == Some(GetEcoAdvice(AdvisorBatch(logs), model))
    {
      var batch := BeginAdviceRequest(logs);
      loadingWhileWaiting := loadingAdvice;
      var result := GetEcoAdvice(batch, model);
      FinishAdviceRequest(result);
    }
  }
}
