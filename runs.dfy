/**
 * The runs listing endpoint (`GET /api/workflow/runs`): turns the caller's
 * execution records into run summaries for the dashboard.
 */
module Runs {
  import opened Values
  import Text
  import Executions

  const UntitledWorkflow: string := "Untitled Workflow"
  const NotConfiguredMessage: string := "Convex not configured"

  /** An execution record as the endpoint reads it: any field may be missing. Timestamps are milliseconds. */
  datatype RunRecord = RunRecord(
    id: Executions.ExecutionId,
    workflowName: Option<string>,
    status: string,
    startedAt: Option<int>,
    createdAt: Option<int>,
    completedAt: Option<int>,
    output: Option<Value>,
    error: Option<string>,
    nodeResults: Option<Value>)

  /** The three statuses a summary reports. */
  datatype RunStatus = Completed | Running | Failed

  datatype RunSummary = RunSummary(
    id: Executions.ExecutionId,
    workflowName: string,
    status: RunStatus,
    startedAt: Option<int>,
    completedAt: Option<int>,
    duration: Option<string>,
    output: Option<Value>,
    error: Option<string>,
    nodeResults: Option<Value>)

  /** The JSON body of the response. */
  datatype RunsResponse = RunsResponse(runs: seq<RunSummary>, total: nat, message: Option<string>)

  /** `completed` and `running` are kept; every other stored status is reported as failed. */
  function NormalizeStatus(status: string): (r: RunStatus)
    ensures r == Completed <==> status == Executions.StatusCompleted
    ensures r == Running <==> status == Executions.StatusRunning
    ensures r == Failed <==> status != Executions.StatusCompleted && status != Executions.StatusRunning
  {
    if status == Executions.StatusCompleted then Completed
    else if status == Executions.StatusRunning then Running
    else Failed
  }

  /**
   * `Math.round(ms / 1000)`: the whole number of seconds nearest to `ms`
   * milliseconds, a tie going up.
   */
  function RoundedSeconds(ms: int): (r: int)
    ensures 1000 * r - 500 <= ms < 1000 * r + 500
  {
    (ms + 500) / 1000
  }

  /** Rounding is determined by the bounds it keeps: no other whole number lies that close. */
  lemma RoundedSecondsUnique(ms: int, s: int)
    requires 1000 * s - 500 <= ms < 1000 * s + 500
    ensures s == RoundedSeconds(ms)
  {
    var r := RoundedSeconds(ms);
    assert 1000 * (s - r) < 1000 && 1000 * (r - s) < 1000;
  }

  /** `${seconds}s`: the signed decimal number of seconds followed by `s`. */
  function DurationText(seconds: int): (t: string)
    ensures |t| >= 2 && t[|t| - 1] == 's'
    ensures seconds < 0 <==> t[0] == '-'
    ensures 0 <= seconds && |t| > 2 ==> t[0] != '0'
    ensures seconds < 0 ==> t[1] != '0'
  {
    Text.IntToDecimal(seconds) + "s"
  }

  /** Reads a duration text back into its number of seconds. */
  function ParseDuration(text: string): Option<int> {
    if |text| > 0 && text[|text| - 1] == 's' then Text.ParseInt(text[..|text| - 1]) else None
  }

  lemma DurationTextRoundTrip(seconds: int)
    ensures ParseDuration(DurationText(seconds)) == Some(seconds)
  {
    var text := DurationText(seconds);
    assert text[..|text| - 1] == Text.IntToDecimal(seconds);
    Text.IntToDecimalRoundTrip(seconds);
  }

  /** Present only when both timestamps are; it then reads back as the rounded elapsed seconds. */
  function Duration(e: RunRecord): (d: Option<string>)
    ensures d.Some? <==> e.completedAt.Some? && e.startedAt.Some?
    ensures d.Some? ==> ParseDuration(d.value) == Some(RoundedSeconds(e.completedAt.value - e.startedAt.value))
    ensures d.Some? ==> d.value == DurationText(RoundedSeconds(e.completedAt.value - e.startedAt.value))
  {
    if e.completedAt.Some? && e.startedAt.Some? then
      var seconds := RoundedSeconds(e.completedAt.value - e.startedAt.value);
      DurationTextRoundTrip(seconds);
      Some(DurationText(seconds))
    else None
  }

  /** One element of the `executions.map` transform. */
  function Summarize(e: RunRecord): (r: RunSummary)
    ensures r.id == e.id
    ensures r.status == NormalizeStatus(e.status)
    ensures r.duration == Duration(e)
    ensures r.output == e.output && r.error == e.error && r.nodeResults == e.nodeResults
    ensures r.completedAt == e.completedAt
  {
    RunSummary(
      e.id,
      if Truthy(e.workflowName) then e.workflowName.value else UntitledWorkflow,
      NormalizeStatus(e.status),
      if e.startedAt.Some? then e.startedAt else e.createdAt,
      e.completedAt,
      Duration(e),
      e.output,
      e.error,
      e.nodeResults)
  }

  /**
   * A duration is reported exactly when both timestamps are known; it then
   * reads back as the elapsed time rounded to the nearest second.
   */
  lemma SummaryDuration(e: RunRecord)
    ensures Summarize(e).duration.Some? <==> e.completedAt.Some? && e.startedAt.Some?
    ensures Summarize(e).duration.Some? ==>
      var elapsed := e.completedAt.value - e.startedAt.value;
      && Summarize(e).duration.value == DurationText(RoundedSeconds(elapsed))
      && (exists s :: ParseDuration(Summarize(e).duration.value) == Some(s)
            && 1000 * s - 500 <= elapsed < 1000 * s + 500)
  {
    if e.completedAt.Some? && e.startedAt.Some? {
      var s := RoundedSeconds(e.completedAt.value - e.startedAt.value);
      DurationTextRoundTrip(s);
    }
  }

  /** The summary is named after its workflow, or "Untitled Workflow" when that name is missing or empty. */
  lemma SummaryName(e: RunRecord)
    ensures Summarize(e).workflowName != ""
    ensures Truthy(e.workflowName) ==> Summarize(e).workflowName == e.workflowName.value
    ensures !Truthy(e.workflowName) ==> Summarize(e).workflowName == UntitledWorkflow
  {
  }

  /** The start time is the record's own, falling back to its creation time. */
  lemma SummaryStart(e: RunRecord)
    ensures e.startedAt.Some? ==> Summarize(e).startedAt == e.startedAt
    ensures e.startedAt.None? ==> Summarize(e).startedAt == e.createdAt
  {
  }

  /** `executions.map(...)`: one summary per record, in the same order. */
  function Summaries(execs: seq<RunRecord>): (r: seq<RunSummary>)
    ensures |r| == |execs|
    ensures forall k :: 0 <= k < |r| ==> r[k] == Summarize(execs[k])
  {
    if execs == [] then [] else [Summarize(execs[0])] + Summaries(execs[1..])
  }

  /** The endpoint's answer, given whether the store is configured and the records it lists. */
  function GetRuns(configured: bool, execs: seq<RunRecord>): (r: RunsResponse)
    ensures !configured ==> r.runs == [] && r.total == 0 && r.message == Some(NotConfiguredMessage)
    ensures configured ==> r.total == |r.runs| == |execs| && r.message.None?
    ensures configured ==> forall k :: 0 <= k < |execs| ==> r.runs[k] == Summarize(execs[k])
  {
    if !configured then RunsResponse([], 0, Some(NotConfiguredMessage))
    else
      var runs := Summaries(execs);
      RunsResponse(runs, |runs|, None)
  }

  /**
   * A `list` entry as the endpoint sees it. The store never writes a
   * `createdAt` field, so that field is missing.
   */
  function FromListed(l: Executions.ListedExecution): (r: RunRecord)
    ensures r.id == l.id && r.workflowName == Some(l.workflowName) && r.status == l.execution.status
    ensures r.startedAt == Some(l.execution.startedAt) && r.createdAt.None?
    ensures r.completedAt == l.execution.completedAt
    ensures r.output == l.execution.output && r.error == l.execution.error
    ensures r.nodeResults == Some(l.execution.nodeResults)
  {
    var e := l.execution;
    RunRecord(l.id, Some(l.workflowName), e.status, Some(e.startedAt), None, e.completedAt,
              e.output, e.error, Some(e.nodeResults))
  }

  /** A run that is still going is summarised as running, without an end or a duration. */
  lemma InProgressSummary(l: Executions.ListedExecution)
    requires Executions.InProgress(l.execution)
    ensures var r := Summarize(FromListed(l));
      r.status == Running && r.completedAt.None? && r.duration.None?
      && r.startedAt == Some(l.execution.startedAt)
  {
  }

  /**
   * A run finished by `completeExecution` is summarised as failed exactly when
   * it was given a non-empty error, and always carries a duration.
   */
  lemma CompletedSummary(l: Executions.ListedExecution, output: Option<Value>, error: Option<string>, now: int)
    ensures var done := l.(execution := Executions.Completed(l.execution, output, error, now));
      var r := Summarize(FromListed(done));
      && (r.status == Failed <==> Truthy(error))
      && (r.status == Completed <==> !Truthy(error))
      && r.duration == Some(DurationText(RoundedSeconds(now - l.execution.startedAt)))
      && r.output == output && r.error == error
  {
  }

  /** The endpoint over what `list` returns: one summary per entry, in `list`'s newest-first order. */
  lemma ListedRuns(entries: seq<Executions.ListedExecution>)
    ensures var r := GetRuns(true, seq(|entries|, k requires 0 <= k < |entries| => FromListed(entries[k])));
      && r.total == |entries|
      && forall k :: 0 <= k < |entries| ==>
           (r.runs[k].id == entries[k].id && r.runs[k].startedAt == Some(entries[k].execution.startedAt))
  {
  }
}
