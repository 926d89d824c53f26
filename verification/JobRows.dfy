/**
  The two tables the patch worker shares among its concurrent writers, and the
  SQL statements that change them. A statement on a host row is a function from
  the row it finds to the row it leaves; the guard in its WHERE clause decides
  whether it affects the row at all.
*/
module JobRows {
  import opened Wrappers

  datatype Status =
    | Queued | Pending | Running | WaitingHealthCheck
    | Succeeded | Failed | Cancelled
  {
    predicate Terminal() {
      Succeeded? || Failed? || Cancelled?
    }
  }

  /** Stored text: what came from outside, or one of the worker's own messages. */
  datatype Text =
    | Raw(text: string)
    | HealthChecksPending
    | WindowClosed
    | FailedWithoutDetail
    | CancelledByAgent
    | JobLost(detail: string)
    | ReconnectTimedOut
    | Upgraded(version: string)

  /** One row of `patch_job_hosts`. Times are seconds. */
  datatype HostRow = HostRow(
    status: Status,
    agentJobId: Option<string>,
    retryCount: int,
    retryNextAt: Option<int>,
    startedAt: Option<int>,
    completedAt: Option<int>,
    output: Text,
    errorMessage: Option<Text>,
    lastError: Option<Text>)
  {
    predicate Terminal() {
      status.Terminal()
    }

    /** Dispatch: mark the row running, keeping the first start time. */
    function MarkRunning(now: int): HostRow {
      if Terminal() then this
      else this.(status := Running, startedAt := Some(startedAt.GetOr(now)))
    }

    /** Dispatch gate: health checks have not passed yet. */
    function MarkWaiting(retryAt: int): HostRow {
      if Terminal() then this
      else this.(status := WaitingHealthCheck, retryNextAt := Some(retryAt),
                 lastError := Some(HealthChecksPending))
    }

    /** The agent accepted the job. This statement carries no guard. */
    function StoreAgentJob(id: string): HostRow {
      this.(agentJobId := Some(id))
    }

    /** The poller, or the self-upgrade confirmation, saw success. */
    function MarkSucceeded(now: int, text: Text): HostRow {
      if Terminal() then this
      else this.(status := Succeeded, completedAt := Some(now), output := text,
                 retryCount := 0, retryNextAt := None, lastError := None, errorMessage := None)
    }

    /** The failure handler schedules a retry. */
    function MarkPending(count: int, retryAt: int, error: Text): HostRow {
      if Terminal() then this
      else this.(status := Pending, retryCount := count, retryNextAt := Some(retryAt),
                 lastError := Some(error))
    }

    /** The failure handler gives up. */
    function MarkFailed(now: int, error: Text): HostRow {
      if Terminal() then this
      else this.(status := Failed, errorMessage := Some(error), completedAt := Some(now))
    }

    /** The retry scanner puts a due row back in the queue. */
    function ResetToQueued(): HostRow {
      if Terminal() then this
      else this.(status := Queued, retryNextAt := None)
    }

    /** The timeout scanner; its guard admits running rows only. */
    function MarkTimedOut(now: int, error: Text): HostRow {
      if status != Running then this
      else this.(status := Failed, errorMessage := Some(error), lastError := Some(error),
                 completedAt := Some(now))
    }

    /** The WS relay applies an agent event with the given database status. */
    function ApplyEvent(now: int, event: Status, text: string, error: Option<string>): HostRow {
      if Terminal() then this
      else
        var seen := this.(status := event, output := if text != "" then Raw(text) else output);
        if event.Terminal() then
          seen.(errorMessage := if error.Some? then Some(Raw(error.value)) else None, completedAt := Some(now))
        else seen
    }
  }

  /** A row as inserted with a new job. */
  const FreshRow := HostRow(Queued, None, 0, None, None, None, Raw(""), None, None)

  /** One row of `patch_jobs`, reduced to what the worker changes. */
  datatype Parent = Parent(status: Status, startedAt: Option<int>, completedAt: Option<int>)
  {
    /** `process_job` marks the job running unless it already runs or has ended. */
    function MarkRunning(now: int): Parent {
      if status.Running? || status.Terminal() then this
      else Parent(Running, Some(startedAt.GetOr(now)), completedAt)
    }

    /** The executor's rollup. The statement has no guard on the current status. */
    function WriteRollup(now: int, rollup: Status): Parent {
      if rollup.Terminal() then Parent(rollup, startedAt, Some(completedAt.GetOr(now)))
      else Parent(rollup, startedAt, completedAt)
    }

    /** The WS relay's rollup, which always rewrites the completion time. */
    function WriteOutcome(now: int, outcome: Status): Parent {
      Parent(outcome, startedAt, Some(now))
    }
  }

  const FreshParent := Parent(Queued, None, None)

  predicate AllTerminal(rows: seq<HostRow>) {
    forall r :: 0 <= r < |rows| ==> rows[r].Terminal()
  }

  /** Everything a terminal row must keep: all columns but the agent's job id. */
  predicate Frozen(before: HostRow, after: HostRow) {
    && after.status == before.status && after.retryCount == before.retryCount
    && after.retryNextAt == before.retryNextAt && after.startedAt == before.startedAt
    && after.completedAt == before.completedAt && after.output == before.output
    && after.errorMessage == before.errorMessage && after.lastError == before.lastError
  }

  /** The indices of the rows a SELECT returns, in order. */
  function Select(rows: seq<HostRow>, p: (int, HostRow) -> bool): (found: seq<nat>)
    ensures forall r :: r in found <==> 0 <= r < |rows| && p(r, rows[r])
    ensures forall k :: 0 <= k < |found| ==> found[k] < |rows| && p(found[k], rows[found[k]])
    ensures forall i, j :: 0 <= i < j < |found| ==> found[i] < found[j]
  {
    if rows == [] then []
    else
      var last := |rows| - 1;
      var front := Select(rows[..last], p);
      assert forall i :: 0 <= i < |front| ==> front[i] in front;
      if p(last, rows[last]) then front + [last] else front
  }
}
