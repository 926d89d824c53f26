/**
  The worker's routines as they are written: sequences of statements on the two
  tables, with loops over fetched rows. Run without interference, each has the
  effect its protocol task has when it takes all its steps in a row.
*/
module JobStore {
  import opened Wrappers
  import opened JobRows
  import opened JobRollup
  import opened JobProtocol

  // ---------------------------------------------------------------------------
  // Specifications: what one undisturbed routine does to the tables
  // ---------------------------------------------------------------------------

  /** The parent after the executor rolled these hosts up into it. */
  function Synced(now: int, db: Db): Db {
    match ExecutorRollup(Statuses(db.rows))
    case Some(rollup) => db.(parent := db.parent.WriteRollup(now, rollup))
    case None => db
  }

  /** One failure of a row: a retry, or the end. */
  function Handled(now: int, row: HostRow, error: Text): HostRow {
    if row.Terminal() then row
    else if row.retryCount < 3 then
      row.MarkPending(row.retryCount + 1, now + RetryDelay(row.retryCount + 1), error)
    else row.MarkFailed(now, error)
  }

  function FailureHandled(now: int, db: Db, r: nat, error: Text): Db
    requires r < |db.rows|
  {
    var written := WriteRow(db, r, Handled(now, db.rows[r], error));
    if !db.rows[r].Terminal() && written.rows[r].Terminal() then Synced(now, written) else written
  }

  function SuccessFinished(now: int, db: Db, r: nat, text: Text): Db
    requires r < |db.rows|
  {
    if db.rows[r].Terminal() then db
    else Synced(now, WriteRow(db, r, db.rows[r].MarkSucceeded(now, text)))
  }

  /** The relay's own rollup, taken only when no host is open. */
  function RelaySynced(now: int, db: Db): Db {
    if OpenCount(Statuses(db.rows)) > 0 then db
    else db.(parent := db.parent.WriteOutcome(now, RelayRollup(Statuses(db.rows))))
  }

  function EventProcessed(now: int, db: Db, r: nat, event: AgentEvent): Db
    requires r < |db.rows|
  {
    match event.DbStatus()
    case None => db
    case Some(status) =>
      var written := WriteRow(db, r, db.rows[r].ApplyEvent(now, status, event.output.GetOr(""), event.error));
      if !db.rows[r].Terminal() && status.Terminal() then RelaySynced(now, written) else written
  }

  // ---------------------------------------------------------------------------
  // What the rollups come to, said of the hosts
  // ---------------------------------------------------------------------------

  predicate AllAre(rows: seq<HostRow>, status: Status) {
    forall r :: 0 <= r < |rows| ==> rows[r].status == status
  }

  predicate SomeFailed(rows: seq<HostRow>) {
    exists r :: 0 <= r < |rows| && rows[r].status.Failed?
  }

  /** The parent ended with the status, keeping an earlier completion time. */
  predicate EndedAs(status: Status, now: int, before: Parent, after: Parent) {
    after == Parent(status, before.startedAt, Some(before.completedAt.GetOr(now)))
  }

  /**
    An open host keeps the job running; among ended ones a failure fails it, all
    succeeded or all cancelled end it so, and a mix of the two leaves it alone.
  */
  predicate RolledUp(now: int, rows: seq<HostRow>, before: Parent, after: Parent) {
    if !AllTerminal(rows) then after == before.(status := Running)
    else if SomeFailed(rows) then EndedAs(Failed, now, before, after)
    else if rows != [] && AllAre(rows, Succeeded) then EndedAs(Succeeded, now, before, after)
    else if rows != [] && AllAre(rows, Cancelled) then EndedAs(Cancelled, now, before, after)
    else after == before
  }

  /** The relay ends the job with its last host, as succeeded unless a host failed. */
  predicate RelayRolledUp(now: int, rows: seq<HostRow>, before: Parent, after: Parent) {
    if AllTerminal(rows) then after == Parent(if SomeFailed(rows) then Failed else Succeeded, before.startedAt, Some(now))
    else after == before
  }

  lemma HostsAsStatuses(rows: seq<HostRow>)
    ensures Failed in Statuses(rows) <==> SomeFailed(rows)
    ensures forall s :: All(Statuses(rows), s) <==> AllAre(rows, s)
    ensures Statuses(rows) == [] <==> rows == []
    ensures Open(Statuses(rows)) <==> !AllTerminal(rows)
  {
    OpenRows(rows);
    var statuses := Statuses(rows);
    forall s ensures All(statuses, s) <==> AllAre(rows, s) {
      assert forall r :: 0 <= r < |rows| ==> statuses[r] == rows[r].status;
    }
  }

  lemma SyncedRollsUp(now: int, db: Db)
    ensures RolledUp(now, db.rows, db.parent, Synced(now, db).parent)
  {
    hide ExecutorRollup, All, AllAre, SomeFailed;
    HostsAsStatuses(db.rows);
    ExecutorRollupMeaning(Statuses(db.rows));
  }

  lemma RelaySyncedRollsUp(now: int, db: Db)
    ensures RelayRolledUp(now, db.rows, db.parent, RelaySynced(now, db).parent)
  {
    hide RelayRollup, OpenCount, SomeFailed;
    HostsAsStatuses(db.rows);
    OpenCountMeaning(Statuses(db.rows));
    RelayRollupMeaning(Statuses(db.rows));
  }

  // ---------------------------------------------------------------------------
  // The specifications are runs of the protocol
  // ---------------------------------------------------------------------------

  /** A task that takes `n` steps with nothing else in between. */
  function Drive(job: Job, now: int, db: Db, t: Task, a: Answer, n: nat): (Db, Task)
    decreases n
  {
    if n == 0 || !InRange(t, |db.rows|) then (db, t)
    else
      var e := Execute(job, now, db, t, a);
      Drive(job, now, e.db, e.next, a, n - 1)
  }

  lemma {:induction false} DoneStays(job: Job, now: int, db: Db, a: Answer, n: nat)
    ensures Drive(job, now, db, Done, a, n) == (db, Done)
    decreases n
  {
    if n > 0 {
      DoneStays(job, now, db, a, n - 1);
    }
  }

  lemma SyncIsARun(job: Job, now: int, db: Db, r: nat, a: Answer)
    requires r < |db.rows|
    ensures Drive(job, now, db, CountHosts(r), a, 2) == (Synced(now, db), Done)
  {
    hide ExecutorRollup;
    var e := Execute(job, now, db, CountHosts(r), a);
    assert Drive(job, now, db, CountHosts(r), a, 2) == Drive(job, now, e.db, e.next, a, 1);
  }

  lemma FailureIsARun(job: Job, now: int, db: Db, r: nat, error: Text, a: Answer)
    requires r < |db.rows|
    ensures Drive(job, now, db, ReadRetry(r, error), a, 4) == (FailureHandled(now, db, r, error), Done)
  {
    hide ExecutorRollup;
    var read := Execute(job, now, db, ReadRetry(r, error), a);
    assert Drive(job, now, db, ReadRetry(r, error), a, 4) == Drive(job, now, db, read.next, a, 3);
    var write := Execute(job, now, db, read.next, a);
    assert Drive(job, now, db, read.next, a, 3) == Drive(job, now, write.db, write.next, a, 2);
    if read.next.WriteFailed? {
      SyncIsARun(job, now, write.db, r, a);
    } else {
      assert db.rows[r := db.rows[r]] == db.rows;
      DoneStays(job, now, write.db, a, 2);
    }
  }

  /** From receiving an event to listening again, or stopping. */
  lemma EventIsARun(job: Job, now: int, db: Db, r: nat, event: AgentEvent, a: Answer)
    requires r < |db.rows| && event.DbStatus().Some?
    ensures exists n: nat :: n <= 5 &&
              Drive(job, now, db, ApplyAgentEvent(r, event, event.DbStatus().value), a, n)
              == (EventProcessed(now, db, r, event), AfterEvent(r, event))
  {
    hide RelayRollup, OpenCount;
    var apply := ApplyAgentEvent(r, event, event.DbStatus().value);
    var e := Execute(job, now, db, apply, a);
    assert forall n: nat :: Drive(job, now, db, apply, a, n + 1) == Drive(job, now, e.db, e.next, a, n);
    if db.rows[r].Terminal() {
      assert EventProcessed(now, db, r, event).rows == db.rows;
      assert Drive(job, now, db, apply, a, 1) == (e.db, e.next);
    } else if !event.DbStatus().value.Terminal() {
      NotifyIsARun(job, now, e.db, r, event, a);
      assert Drive(job, now, db, apply, a, 1 + 1) == Drive(job, now, e.db, e.next, a, 1);
    } else {
      RelaySyncIsARun(job, now, e.db, r, event, a);
      var n: nat :| n <= 4 && Drive(job, now, e.db, CountOpen(r, event), a, n)
                              == (RelaySynced(now, e.db), AfterEvent(r, event));
      assert Drive(job, now, db, apply, a, n + 1) == Drive(job, now, e.db, e.next, a, n);
    }
  }

  lemma NotifyIsARun(job: Job, now: int, db: Db, r: nat, event: AgentEvent, a: Answer)
    requires r < |db.rows|
    ensures Drive(job, now, db, NotifyHost(r, event), a, 1) == (db, AfterEvent(r, event))
  {
    var e := Execute(job, now, db, NotifyHost(r, event), a);
    assert Drive(job, now, db, NotifyHost(r, event), a, 1) == Drive(job, now, e.db, e.next, a, 0);
  }

  lemma RelaySyncIsARun(job: Job, now: int, db: Db, r: nat, event: AgentEvent, a: Answer)
    requires r < |db.rows|
    ensures exists n: nat :: n <= 4 &&
              Drive(job, now, db, CountOpen(r, event), a, n) == (RelaySynced(now, db), AfterEvent(r, event))
  {
    hide RelayRollup, OpenCount;
    var count := Execute(job, now, db, CountOpen(r, event), a);
    if OpenCount(Statuses(db.rows)) > 0 {
      NotifyIsARun(job, now, db, r, event, a);
      assert Drive(job, now, db, CountOpen(r, event), a, 2) == Drive(job, now, db, count.next, a, 1);
    } else {
      var outcome := Execute(job, now, db, CountOutcome(r, event), a);
      var write := Execute(job, now, db, outcome.next, a);
      NotifyIsARun(job, now, write.db, r, event, a);
      assert Drive(job, now, db, outcome.next, a, 2) == Drive(job, now, write.db, write.next, a, 1);
      assert Drive(job, now, db, CountOutcome(r, event), a, 3) == Drive(job, now, db, outcome.next, a, 2);
      assert Drive(job, now, db, CountOpen(r, event), a, 4) == Drive(job, now, db, count.next, a, 3);
    }
  }

  // ---------------------------------------------------------------------------
  // The routines
  // ---------------------------------------------------------------------------

  class Database {
    var rows: seq<HostRow>
    var parent: Parent

    ghost function Value(): Db
      reads this
    {
      Db(rows, parent)
    }

    /** A job as inserted, with one queued row per host. */
    constructor (n: nat)
      ensures forall job, now :: Value() == Initial(job, n, now).db
    {
      rows := seq(n, _ => FreshRow);
      parent := FreshParent;
    }

    /** `sync_job_status` */
    method SyncJobStatus(now: int)
      modifies this
      ensures rows == old(rows) && Value() == Synced(now, old(Value()))
      ensures RolledUp(now, rows, old(parent), parent)
    {
      SyncedRollsUp(now, Value());
      var statuses := Statuses(rows);
      var status: Status;
      if Count(statuses, Running) > 0 || Count(statuses, Pending) > 0
         || Count(statuses, Queued) > 0 || Count(statuses, WaitingHealthCheck) > 0 {
        status := Running;
      } else if |statuses| > 0 && Count(statuses, Succeeded) == |statuses| {
        status := Succeeded;
      } else if |statuses| > 0 && Count(statuses, Cancelled) == |statuses| {
        status := Cancelled;
      } else if Count(statuses, Failed) > 0 {
        status := Failed;
      } else {
        return;
      }
      parent := parent.WriteRollup(now, status);
    }

    /**
      `handle_host_failure`: a row that has not ended backs off one, five or thirty
      minutes, and fails for good the fourth time, which rolls up the parent.
    */
    method HandleHostFailure(r: nat, error: Text, now: int)
      requires r < |rows|
      modifies this
      ensures Value() == FailureHandled(now, old(Value()), r, error)
      ensures |rows| == |old(rows)| && forall q :: 0 <= q < |rows| && q != r ==> rows[q] == old(rows)[q]
      ensures old(rows)[r].Terminal() ==> rows == old(rows) && parent == old(parent)
      ensures !old(rows)[r].Terminal() && old(rows)[r].retryCount >= 3 ==>
                && rows[r].status == Failed && rows[r].errorMessage == Some(error) && rows[r].completedAt == Some(now)
                && RolledUp(now, rows, old(parent), parent)
      ensures !old(rows)[r].Terminal() && old(rows)[r].retryCount < 3 ==>
                && rows[r].status == Pending && rows[r].retryCount == old(rows)[r].retryCount + 1
                && rows[r].lastError == Some(error) && parent == old(parent)
                && rows[r].retryNextAt == Some(now + 60 * match old(rows)[r].retryCount + 1
                                                          case 1 => 1
                                                          case 2 => 5
                                                          case _ => 30)
    {
      var row := rows[r];
      if row.Terminal() {
        return;
      }
      if row.retryCount < 3 {
        var count := row.retryCount + 1;
        var delay := if count == 1 then 60 else if count == 2 then 300 else 1800;
        rows := rows[r := rows[r].MarkPending(count, now + delay, error)];
      } else {
        var written := !rows[r].Terminal();
        rows := rows[r := rows[r].MarkFailed(now, error)];
        if written {
          SyncJobStatus(now);
        }
      }
    }

    /** The success arm of `poll_single_host`, and `finish_self_upgrade_success`. */
    method FinishSuccess(r: nat, text: Text, now: int)
      requires r < |rows|
      modifies this
      ensures Value() == SuccessFinished(now, old(Value()), r, text)
      ensures |rows| == |old(rows)| && forall q :: 0 <= q < |rows| && q != r ==> rows[q] == old(rows)[q]
      ensures old(rows)[r].Terminal() ==> rows == old(rows) && parent == old(parent)
      ensures !old(rows)[r].Terminal() ==>
                && rows[r].status.Succeeded? && rows[r].output == text && rows[r].completedAt == Some(now)
                && rows[r].retryCount == 0 && rows[r].errorMessage.None?
                && RolledUp(now, rows, old(parent), parent)
    {
      var written := !rows[r].Terminal();
      rows := rows[r := rows[r].MarkSucceeded(now, text)];
      if written {
        SyncJobStatus(now);
      }
    }

    /** `update_parent_job_status` */
    method UpdateParentJobStatus(now: int)
      modifies this
      ensures Value() == RelaySynced(now, old(Value()))
      ensures rows == old(rows) && RelayRolledUp(now, rows, old(parent), parent)
    {
      RelaySyncedRollsUp(now, Value());
      var open := OpenCount(Statuses(rows));
      if open > 0 {
        return;
      }
      var failed := Count(Statuses(rows), Failed);
      parent := parent.WriteOutcome(now, if failed > 0 then Failed else Succeeded);
    }

    /** `process_event`; `notified` tells whether the browser event is sent. */
    method ProcessEvent(r: nat, event: AgentEvent, now: int) returns (notified: bool)
      requires r < |rows|
      modifies this
      ensures Value() == EventProcessed(now, old(Value()), r, event)
      ensures notified <==> event.DbStatus().Some? && !old(rows)[r].Terminal()
      ensures |rows| == |old(rows)| && forall q :: 0 <= q < |rows| && q != r ==> rows[q] == old(rows)[q]
      ensures !notified ==> rows == old(rows) && parent == old(parent)
      ensures notified ==>
                && Some(rows[r].status) == event.DbStatus()
                && rows[r].retryCount == old(rows)[r].retryCount && rows[r].startedAt == old(rows)[r].startedAt
                && (rows[r].Terminal() ==> rows[r].completedAt == Some(now))
                && (if rows[r].Terminal() then RelayRolledUp(now, rows, old(parent), parent) else parent == old(parent))
    {
      var mapped := event.DbStatus();
      if mapped.None? {
        return false;
      }
      notified := !rows[r].Terminal();
      rows := rows[r := rows[r].ApplyEvent(now, mapped.value, event.output.GetOr(""), event.error)];
      if notified && mapped.value.Terminal() {
        UpdateParentJobStatus(now);
      }
    }

    /**
      `retry_pending_jobs`: every due row goes back to the queue and is dispatched
      again; no other row changes.
    */
    method RetryPendingJobs(now: int) returns (dispatched: seq<nat>)
      modifies this
      ensures dispatched == DueForRetry(now, old(Value()))
      ensures parent == old(parent) && rows == Requeued(old(rows), dispatched)
    {
      var due := DueForRetry(now, Db(rows, parent));
      dispatched := [];
      for k := 0 to |due|
        invariant parent == old(parent) && |rows| == |old(rows)|
        invariant dispatched == due[..k]
        invariant rows == Requeued(old(rows), due[..k])
      {
        var r := due[k];
        NotYetVisited(due, k);
        if !rows[r].Terminal() {
          rows := rows[r := rows[r].ResetToQueued()];
          dispatched := dispatched + [r];
        }
        assert due[..k + 1] == due[..k] + [r];
      }
      assert due[..|due|] == due;
    }

    /**
      `fail_timed_out_jobs`: exactly the overdue rows fail, and the parent ends up
      rolled up as if once, after the last of them.
    */
    method FailTimedOutJobs(job: Job, now: int, text: Text)
      modifies this
      ensures var due := DueForTimeout(job, now, old(Value()));
              && rows == Expired(old(rows), due, now, text)
              && Value() == if due == [] then old(Value()) else Synced(now, Db(rows, old(parent)))
    {
      hide ExecutorRollup, Expired, Synced, TimedOut, Statuses, Select;
      var due := DueForTimeout(job, now, Db(rows, parent));
      ghost var rows0, parent0 := rows, parent;
      assert forall r: nat :: r in due ==> r < |rows| && rows[r].status.Running? by {
        OverdueRowsRun(job, now, Value());
      }
      for k := 0 to |due|
        invariant rows == Expired(rows0, due[..k], now, text)
        invariant k == 0 ==> parent == parent0
        invariant 0 < k < |due| ==> parent == parent0.WriteRollup(now, Running)
        invariant 0 < k ==> Value() == Synced(now, Db(rows, parent0))
      {
        ExpireNext(rows0, due, k, now, text);
        rows := rows[due[k] := rows[due[k]].MarkTimedOut(now, text)];
        SyncTwice(now, rows, parent0);
        SyncJobStatus(now);
      }
      assert due[..|due|] == due;
    }
  }

  lemma OverdueRowsRun(job: Job, now: int, db: Db)
    ensures forall r: nat :: r in DueForTimeout(job, now, db) ==> db.rows[r].status.Running?
  {
  }

  /** The rows after those in `rs` went back to the queue. */
  function Requeued(rows: seq<HostRow>, rs: seq<nat>): (after: seq<HostRow>)
    ensures |after| == |rows|
    ensures forall r :: 0 <= r < |rows| ==>
              after[r] == if r in rs then rows[r].ResetToQueued() else rows[r]
  {
    seq(|rows|, r requires 0 <= r < |rows| => if r in rs then rows[r].ResetToQueued() else rows[r])
  }

  /** The rows after those in `rs` timed out. */
  function Expired(rows: seq<HostRow>, rs: seq<nat>, now: int, text: Text): (after: seq<HostRow>)
    ensures |after| == |rows|
    ensures forall r :: 0 <= r < |rows| ==>
              after[r] == if r in rs then rows[r].MarkTimedOut(now, text) else rows[r]
  {
    seq(|rows|, r requires 0 <= r < |rows| => if r in rs then rows[r].MarkTimedOut(now, text) else rows[r])
  }

  lemma NotYetVisited(found: seq<nat>, k: nat)
    requires k < |found|
    requires forall i, j :: 0 <= i < j < |found| ==> found[i] < found[j]
    ensures found[k] !in found[..k] && found[k] in found
  {
  }

  /** The loop of the timeout scan: one more row fails, and the rollup has an answer. */
  lemma ExpireNext(rows: seq<HostRow>, due: seq<nat>, k: nat, now: int, text: Text)
    requires k < |due|
    requires forall i, j :: 0 <= i < j < |due| ==> due[i] < due[j]
    requires forall r: nat :: r in due ==> r < |rows| && rows[r].status.Running?
    ensures due[k] < |rows|
    ensures var before := Expired(rows, due[..k], now, text);
            var after := Expired(rows, due[..k + 1], now, text);
            && before[due[k] := before[due[k]].MarkTimedOut(now, text)] == after
            && ExecutorRollup(Statuses(after)).Some?
            && (k + 1 < |due| ==> ExecutorRollup(Statuses(after)) == Some(Running))
  {
    hide ExecutorRollup;
    NotYetVisited(due, k);
    assert due[..k + 1] == due[..k] + [due[k]];
    var after := Expired(rows, due[..k + 1], now, text);
    ExecutorRollupMeaning(Statuses(after));
    assert Statuses(after)[due[k]] == Failed && Failed in Statuses(after);
    if k + 1 < |due| {
      NotYetVisited(due, k + 1);
      assert Statuses(after)[due[k + 1]] == Running && Running in Statuses(after);
    }
  }

  /** Rolling up `running` first makes no difference to the next rollup. */
  lemma SyncTwice(now: int, rows: seq<HostRow>, parent: Parent)
    requires ExecutorRollup(Statuses(rows)).Some?
    ensures Synced(now, Db(rows, parent.WriteRollup(now, Running))) == Synced(now, Db(rows, parent))
    ensures ExecutorRollup(Statuses(rows)) == Some(Running) ==>
              Synced(now, Db(rows, parent)).parent == parent.WriteRollup(now, Running)
  {
    hide ExecutorRollup;
  }
}
