/**
  What every interleaving of the job protocol keeps. The invariant speaks about
  rows, the parent and the stale facts that in-flight tasks carry; its key point
  is that whatever a task may still act on stays true while others interfere.
*/
module JobSafety {
  import opened Wrappers
  import opened JobRows
  import opened JobRollup
  import opened JobProtocol

  predicate RowOk(row: HostRow) {
    && 0 <= row.retryCount <= 3
    && (row.status.Pending? || row.status.WaitingHealthCheck? ==> row.retryNextAt.Some?)
    && (row.status.Running? ==> row.startedAt.Some?)
    && (row.status.Queued? ==> row.retryNextAt.None?)
  }

  /** The parent has ended only if every host has, with one of the two rollups. */
  predicate ParentOk(db: Db) {
    && (db.parent.status.Terminal() ==>
          AllTerminal(db.rows) && IsRollup(db.rows, db.parent.status))
    && !db.parent.status.Pending? && !db.parent.status.WaitingHealthCheck?
  }

  predicate IsRollup(rows: seq<HostRow>, status: Status) {
    ExecutorRollup(Statuses(rows)) == Some(status) || RelayRollup(Statuses(rows)) == status
  }

  predicate DbOk(db: Db) {
    && |db.rows| > 0
    && (forall r :: 0 <= r < |db.rows| ==> RowOk(db.rows[r]))
    && ParentOk(db)
  }

  /** What a task may rely on, however stale its reads are. */
  predicate TaskOk(t: Task, rows: seq<HostRow>) {
    && InRange(t, |rows|)
    && (RelayRow(t).Some? ==>
          RelayRow(t).value < |rows| && rows[RelayRow(t).value].startedAt.Some?)
    && match t
       case WritePending(_, count, _, _) => 1 <= count <= 3
       case WriteParent(rollup) =>
         rollup == Running
         || (rollup.Terminal() && AllTerminal(rows) && ExecutorRollup(Statuses(rows)) == Some(rollup))
       case AttachRelays(rs) => forall r :: r in rs ==> r < |rows| && rows[r].startedAt.Some?
       case ApplyAgentEvent(_, event, status) => event.DbStatus() == Some(status)
       case CountOutcome(_, _) => AllTerminal(rows)
       case WriteOutcome(_, _, outcome) => AllTerminal(rows) && RelayRollup(Statuses(rows)) == outcome
       case _ => true
  }

  /** How a row may have changed: ended rows are frozen, start times stay. */
  predicate Later(before: HostRow, after: HostRow) {
    && (before.Terminal() ==> Frozen(before, after))
    && (before.startedAt.Some? ==> after.startedAt.Some?)
  }

  predicate LaterRows(before: seq<HostRow>, after: seq<HostRow>) {
    |before| == |after| && forall r :: 0 <= r < |before| ==> Later(before[r], after[r])
  }

  lemma LaterKeepsEnd(before: seq<HostRow>, after: seq<HostRow>)
    requires LaterRows(before, after) && AllTerminal(before)
    ensures AllTerminal(after) && Statuses(after) == Statuses(before)
  {
    forall r | 0 <= r < |before| ensures after[r].status == before[r].status {
      assert Frozen(before[r], after[r]);
    }
  }

  /** Interference: no other task can invalidate what a task relies on. */
  lemma TaskStable(t: Task, before: seq<HostRow>, after: seq<HostRow>)
    requires LaterRows(before, after) && TaskOk(t, before)
    ensures TaskOk(t, after)
  {
    if AllTerminal(before) {
      LaterKeepsEnd(before, after);
    }
  }

  lemma WriteRowOk(db: Db, r: nat, row: HostRow)
    requires DbOk(db) && r < |db.rows| && RowOk(row) && Later(db.rows[r], row)
    ensures DbOk(WriteRow(db, r, row)) && LaterRows(db.rows, WriteRow(db, r, row).rows)
  {
    if AllTerminal(db.rows) {
      LaterKeepsEnd(db.rows, db.rows[r := row]);
    }
  }

  lemma ParentWriteOk(db: Db, parent: Parent)
    requires DbOk(db)
    requires parent.status.Terminal() ==> AllTerminal(db.rows) && IsRollup(db.rows, parent.status)
    requires !parent.status.Pending? && !parent.status.WaitingHealthCheck?
    ensures DbOk(db.(parent := parent))
  {
  }

  predicate EffectOk(before: Db, e: Effect) {
    && DbOk(e.db)
    && LaterRows(before.rows, e.db.rows)
    && TaskOk(e.next, e.db.rows)
    && forall k :: 0 <= k < |e.spawned| ==> TaskOk(e.spawned[k], e.db.rows)
  }

  lemma QueueOk(now: int, db: Db, t: Task)
    requires DbOk(db) && RoleOf(t).Queueing?
    ensures EffectOk(db, QueueStep(now, db, t))
  {
    hide ExecutorRollup, RelayRollup;
    if t.MarkJobRunning? {
      ParentWriteOk(db, db.parent.MarkRunning(now));
    }
  }

  lemma DispatchOk(now: int, db: Db, t: Task, a: Answer)
    requires DbOk(db) && TaskOk(t, db.rows) && RoleOf(t).Dispatching?
    ensures EffectOk(db, DispatchStep(now, db, t, a))
  {
    hide ExecutorRollup, RelayRollup;
    match t
    case WriteWaiting(r, retryAt) =>
      WriteRowOk(db, r, db.rows[r].MarkWaiting(retryAt));
    case WriteRunning(r) =>
      WriteRowOk(db, r, db.rows[r].MarkRunning(now));
    case WriteAgentJob(r, id) =>
      WriteRowOk(db, r, db.rows[r].StoreAgentJob(id));
    case _ =>
  }

  lemma FailureOk(now: int, db: Db, t: Task)
    requires DbOk(db) && TaskOk(t, db.rows) && RoleOf(t).Failing?
    ensures EffectOk(db, FailureStep(now, db, t))
  {
    hide ExecutorRollup, RelayRollup;
    match t
    case WritePending(r, count, retryAt, error) =>
      WriteRowOk(db, r, db.rows[r].MarkPending(count, retryAt, error));
    case WriteFailed(r, error) =>
      WriteRowOk(db, r, db.rows[r].MarkFailed(now, error));
    case _ =>
  }

  lemma PollOk(job: Job, now: int, db: Db, t: Task, a: Answer)
    requires DbOk(db) && TaskOk(t, db.rows) && RoleOf(t).Polling?
    ensures EffectOk(db, PollStep(job, now, db, t, a))
  {
    hide ExecutorRollup, RelayRollup;
    match t
    case CountHosts(_) =>
      OpenRows(db.rows);
      ExecutorRollupMeaning(Statuses(db.rows));
    case WriteParent(rollup) => ParentWriteOk(db, db.parent.WriteRollup(now, rollup));
    case WriteSucceeded(r, text) =>
      WriteRowOk(db, r, db.rows[r].MarkSucceeded(now, text));
    case _ =>
  }

  lemma ScanOk(now: int, db: Db, t: Task, a: Answer)
    requires DbOk(db) && TaskOk(t, db.rows) && RoleOf(t).Scanning?
    ensures EffectOk(db, ScanStep(now, db, t, a))
  {
    hide ExecutorRollup, RelayRollup;
    if t.rows != [] {
      var r := t.rows[0];
      assert r in t.rows && forall q :: q in t.rows[1..] ==> q in t.rows;
      WriteRowOk(db, r, if t.ResetRows? then db.rows[r].ResetToQueued() else db.rows[r].MarkTimedOut(now, Raw(a.text)));
    }
  }

  lemma AttachOk(now: int, db: Db, t: Task, a: Answer)
    requires DbOk(db) && TaskOk(t, db.rows) && t.AttachRelays?
    ensures EffectOk(db, RelayStep(now, db, t, a))
  {
    hide ExecutorRollup, RelayRollup, DbOk;
    var rs := t.rows;
    if rs != [] {
      assert rs[0] in rs && forall q :: q in rs[1..] ==> q in rs;
    }
  }

  lemma EventOk(now: int, db: Db, t: Task, a: Answer)
    requires DbOk(db) && TaskOk(t, db.rows) && t.ApplyAgentEvent?
    ensures EffectOk(db, RelayStep(now, db, t, a))
  {
    hide ExecutorRollup, RelayRollup, OpenCount;
    var text := t.event.output.GetOr("");
    WriteRowOk(db, t.row, db.rows[t.row].ApplyEvent(now, t.status, text, t.event.error));
  }

  lemma RelayOk(now: int, db: Db, t: Task, a: Answer)
    requires DbOk(db) && TaskOk(t, db.rows) && RoleOf(t).Relaying?
    ensures EffectOk(db, RelayStep(now, db, t, a))
  {
    hide ExecutorRollup, RelayRollup, OpenCount;
    match t
    case AttachRelays(_) => AttachOk(now, db, t, a);
    case ApplyAgentEvent(_, _, _) => EventOk(now, db, t, a);
    case CountOpen(r, event) =>
      OpenRows(db.rows);
      OpenCountMeaning(Statuses(db.rows));
    case WriteOutcome(r, event, outcome) =>
      RelayRollupMeaning(Statuses(db.rows));
      ParentWriteOk(db, db.parent.WriteOutcome(now, outcome));
    case _ =>
  }

  /** Every step of every task, taken in any database its stale reads allow. */
  lemma ExecuteOk(job: Job, now: int, db: Db, t: Task, a: Answer)
    requires DbOk(db) && TaskOk(t, db.rows)
    ensures EffectOk(db, Execute(job, now, db, t, a))
  {
    hide DispatchStep, FailureStep, PollStep, ScanStep, RelayStep;
    match RoleOf(t)
    case Idle =>
    case Queueing => QueueOk(now, db, t);
    case Dispatching => DispatchOk(now, db, t, a);
    case Failing => FailureOk(now, db, t);
    case Polling => PollOk(job, now, db, t, a);
    case Scanning => ScanOk(now, db, t, a);
    case Relaying => RelayOk(now, db, t, a);
  }

  // ---------------------------------------------------------------------------
  // The invariant of the whole system
  // ---------------------------------------------------------------------------

  predicate Inv(w: World) {
    && DbOk(w.db)
    && |w.history| == |w.db.rows|
    && forall i :: 0 <= i < |w.tasks| ==> TaskOk(w.tasks[i], w.db.rows)
  }

  lemma StepTaskOk(w: World, i: nat, a: Answer)
    requires Inv(w) && i < |w.tasks|
    ensures Inv(StepTask(w, i, a)) && LaterRows(w.db.rows, StepTask(w, i, a).db.rows)
  {
    hide Execute;
    var told := Told(w, w.tasks[i], a);
    var e := Execute(w.job, w.now, w.db, w.tasks[i], told);
    ExecuteOk(w.job, w.now, w.db, w.tasks[i], told);
    var w' := StepTask(w, i, a);
    forall j | 0 <= j < |w'.tasks| ensures TaskOk(w'.tasks[j], e.db.rows) {
      if j >= |w.tasks| {
        assert w'.tasks[j] == e.spawned[j - |w.tasks|];
      } else if j != i {
        TaskStable(w.tasks[j], w.db.rows, e.db.rows);
      }
    }
  }

  lemma NextOk(w: World, act: Action)
    requires Inv(w)
    ensures Inv(Next(w, act)) && LaterRows(w.db.rows, Next(w, act).db.rows)
  {
    hide StepTask, ExecutorRollup, RelayRollup, ParentOk, Polls, Accepted, DueForRetry, DueForTimeout;
    match act
    case Step(i, a) =>
      if i < |w.tasks| {
        StepTaskOk(w, i, a);
      }
    case _ =>
  }

  lemma InitialOk(job: Job, n: nat, now: int)
    requires n > 0
    ensures Inv(Initial(job, n, now))
  {
  }

  lemma LaterTransitive(a: seq<HostRow>, b: seq<HostRow>, c: seq<HostRow>)
    requires LaterRows(a, b) && LaterRows(b, c)
    ensures LaterRows(a, c)
  {
    forall r | 0 <= r < |a| ensures Later(a[r], c[r]) {
      assert Later(a[r], b[r]) && Later(b[r], c[r]);
    }
  }

  lemma {:induction false} RunOk(w: World, acts: seq<Action>)
    requires Inv(w)
    ensures Inv(Run(w, acts)) && LaterRows(w.db.rows, Run(w, acts).db.rows)
    decreases |acts|
  {
    if acts != [] {
      NextOk(w, acts[0]);
      RunOk(Next(w, acts[0]), acts[1..]);
      LaterTransitive(w.db.rows, Next(w, acts[0]).db.rows, Run(w, acts).db.rows);
    }
  }

  lemma {:induction false} RunSplit(w: World, first: seq<Action>, more: seq<Action>)
    ensures Run(w, first + more) == Run(Run(w, first), more)
    decreases |first|
  {
    if first == [] {
      assert first + more == more;
    } else {
      assert (first + more)[0] == first[0] && (first + more)[1..] == first[1..] + more;
      RunSplit(Next(w, first[0]), first[1..], more);
    }
  }

  // ---------------------------------------------------------------------------
  // Main results
  // ---------------------------------------------------------------------------

  /**
    In every reachable state: if the parent has ended then every host has, and the
    parent's status is what one of the two rules gives for the hosts as they are.
  */
  lemma ParentEndsWithItsHosts(job: Job, n: nat, now: int, acts: seq<Action>)
    requires n > 0
    ensures var db := Run(Initial(job, n, now), acts).db;
            db.parent.status.Terminal() ==>
              && AllTerminal(db.rows)
              && (ExecutorRollup(Statuses(db.rows)) == Some(db.parent.status)
                  || RelayRollup(Statuses(db.rows)) == db.parent.status)
  {
    InitialOk(job, n, now);
    RunOk(Initial(job, n, now), acts);
  }

  /** A host row that has ended never changes again, except for the agent's job id. */
  lemma EndedRowsAreFrozen(job: Job, n: nat, now: int, acts: seq<Action>, more: seq<Action>, r: nat)
    requires r < n
    ensures var before := Run(Initial(job, n, now), acts).db.rows;
            var after := Run(Initial(job, n, now), acts + more).db.rows;
            |before| == |after| == n && (before[r].Terminal() ==> Frozen(before[r], after[r]))
  {
    InitialOk(job, n, now);
    RunOk(Initial(job, n, now), acts);
    RunOk(Run(Initial(job, n, now), acts), more);
    RunSplit(Initial(job, n, now), acts, more);
  }

  // ---------------------------------------------------------------------------
  // One ending, one rollup and one relay per row
  // ---------------------------------------------------------------------------

  /** A step's recorded write says exactly which row ended and who follows it up. */
  predicate WriteTold(before: Db, e: Effect) {
    && |e.db.rows| == |before.rows|
    && var ended := e.write.Ended? || e.write.FailureEnded?;
       if ended then
         && e.write.row < |before.rows|
         && !before.rows[e.write.row].Terminal() && e.db.rows[e.write.row].Terminal()
         && (forall r :: 0 <= r < |before.rows| && r != e.write.row ==>
               e.db.rows[r].Terminal() == before.rows[r].Terminal())
         && (if RollupStart(e.next).Some? then RollupStart(e.next).value == e.write.row && e.spawned == []
             else |e.spawned| == 1 && RollupStart(e.spawned[0]) == Some(e.write.row))
       else
         && (forall r :: 0 <= r < |before.rows| ==> e.db.rows[r].Terminal() == before.rows[r].Terminal())
         && RollupStart(e.next).None?
         && (forall k :: 0 <= k < |e.spawned| ==> RollupStart(e.spawned[k]).None?)
  }

  lemma DispatchTells(now: int, db: Db, t: Task, a: Answer)
    requires TaskOk(t, db.rows) && RoleOf(t).Dispatching?
    ensures WriteTold(db, DispatchStep(now, db, t, a))
  {
  }

  lemma FailureTells(now: int, db: Db, t: Task)
    requires TaskOk(t, db.rows) && RoleOf(t).Failing?
    ensures WriteTold(db, FailureStep(now, db, t))
  {
  }

  lemma PollTells(job: Job, now: int, db: Db, t: Task, a: Answer)
    requires TaskOk(t, db.rows) && RoleOf(t).Polling?
    ensures WriteTold(db, PollStep(job, now, db, t, a))
  {
    hide ExecutorRollup;
  }

  lemma ScanTells(now: int, db: Db, t: Task, a: Answer)
    requires TaskOk(t, db.rows) && RoleOf(t).Scanning?
    ensures WriteTold(db, ScanStep(now, db, t, a))
  {
    if t.rows != [] {
      assert t.rows[0] in t.rows;
    }
  }

  lemma RelayTells(now: int, db: Db, t: Task, a: Answer)
    requires TaskOk(t, db.rows) && RoleOf(t).Relaying?
    ensures WriteTold(db, RelayStep(now, db, t, a))
  {
    hide RelayRollup, OpenCount;
  }

  lemma ExecuteTells(job: Job, now: int, db: Db, t: Task, a: Answer)
    requires TaskOk(t, db.rows)
    ensures WriteTold(db, Execute(job, now, db, t, a))
  {
    hide DispatchStep, FailureStep, PollStep, ScanStep, RelayStep;
    match RoleOf(t)
    case Idle =>
    case Queueing =>
    case Dispatching => DispatchTells(now, db, t, a);
    case Failing => FailureTells(now, db, t);
    case Polling => PollTells(job, now, db, t, a);
    case Scanning => ScanTells(now, db, t, a);
    case Relaying => RelayTells(now, db, t, a);
  }

  /** Each row has ended once or not at all, and started one rollup for it. */
  predicate HistoryOk(w: World) {
    && |w.history| == |w.db.rows|
    && forall r :: 0 <= r < |w.db.rows| ==>
         && w.history[r].endings == (if w.db.rows[r].Terminal() then 1 else 0)
         && w.history[r].rollups == w.history[r].endings
  }

  lemma HistoryTask(w: World, i: nat, a: Answer)
    requires Inv(w) && HistoryOk(w) && i < |w.tasks|
    ensures HistoryOk(StepTask(w, i, a))
  {
    hide Execute, Told, Tracked, Overwritten, DbOk;
    assert TaskOk(w.tasks[i], w.db.rows);
    ExecuteTells(w.job, w.now, w.db, w.tasks[i], Told(w, w.tasks[i], a));
  }

  lemma HistoryStep(w: World, act: Action)
    requires Inv(w) && HistoryOk(w)
    ensures HistoryOk(Next(w, act))
  {
    hide StepTask, Polls, Accepted, DueForRetry, DueForTimeout, DbOk;
    if act.Step? && act.task < |w.tasks| {
      HistoryTask(w, act.task, act.answer);
    }
  }

  lemma {:induction false} HistoryRun(w: World, acts: seq<Action>)
    requires Inv(w) && HistoryOk(w)
    ensures HistoryOk(Run(w, acts))
    decreases |acts|
  {
    if acts != [] {
      NextOk(w, acts[0]);
      HistoryStep(w, acts[0]);
      HistoryRun(Next(w, acts[0]), acts[1..]);
    }
  }

  /**
    Over any run, exactly one write ends a row, and exactly one rollup of the
    parent is started for it: stale writers neither end it again nor follow up.
  */
  lemma RowsEndOnce(job: Job, n: nat, now: int, acts: seq<Action>, r: nat)
    requires r < n
    ensures var w := Run(Initial(job, n, now), acts);
            && |w.history| == |w.db.rows| == n
            && w.history[r].endings == (if w.db.rows[r].Terminal() then 1 else 0)
            && w.history[r].rollups == w.history[r].endings
  {
    InitialOk(job, n, now);
    RunOk(Initial(job, n, now), acts);
    HistoryRun(Initial(job, n, now), acts);
  }

  /** The task has yet to notify the browser of the row's end. */
  predicate Announces(t: Task, r: nat) {
    match t
    case CountOpen(q, event) => q == r && TellsEnd(event)
    case CountOutcome(q, event) => q == r && TellsEnd(event)
    case WriteOutcome(q, event, _) => q == r && TellsEnd(event)
    case NotifyHost(q, event) => q == r && TellsEnd(event)
    case _ => false
  }

  /** The end of a row is announced, or to be announced, at most once, and not before it. */
  predicate NoticesOk(w: World, r: nat) {
    && r < |w.db.rows| == |w.history|
    && w.history[r].notices <= (if w.db.rows[r].Terminal() then 1 else 0)
    && (forall i :: 0 <= i < |w.tasks| && Announces(w.tasks[i], r) ==>
          w.db.rows[r].Terminal() && w.history[r].notices == 0)
    && forall i, j :: 0 <= i < j < |w.tasks| ==> !(Announces(w.tasks[i], r) && Announces(w.tasks[j], r))
  }

  /** A step announces only what it was about to, or what it has just ended itself. */
  predicate AnnouncesOn(before: Db, t: Task, e: Effect, r: nat)
    requires r < |before.rows|
  {
    && |e.db.rows| == |before.rows|
    && (before.rows[r].Terminal() ==> e.db.rows[r].Terminal())
    && (Announces(e.next, r) ==>
          (Announces(t, r) && !t.NotifyHost?) || (!before.rows[r].Terminal() && e.db.rows[r].Terminal()))
    && forall k :: 0 <= k < |e.spawned| ==> !Announces(e.spawned[k], r)
  }

  lemma RelayAnnounces(now: int, db: Db, t: Task, a: Answer, r: nat)
    requires TaskOk(t, db.rows) && r < |db.rows| && RoleOf(t).Relaying?
    ensures AnnouncesOn(db, t, RelayStep(now, db, t, a), r)
  {
    hide RelayRollup, OpenCount;
  }

  lemma OthersAnnounce(job: Job, now: int, db: Db, t: Task, a: Answer, r: nat)
    requires TaskOk(t, db.rows) && r < |db.rows| && !RoleOf(t).Relaying?
    ensures AnnouncesOn(db, t, Execute(job, now, db, t, a), r)
  {
    hide ExecutorRollup;
    if (t.ResetRows? || t.FailRows?) && t.rows != [] {
      assert t.rows[0] in t.rows;
    }
  }

  lemma ExecuteAnnounces(job: Job, now: int, db: Db, t: Task, a: Answer, r: nat)
    requires TaskOk(t, db.rows) && r < |db.rows|
    ensures AnnouncesOn(db, t, Execute(job, now, db, t, a), r)
  {
    hide RelayStep, TaskOk;
    if RoleOf(t).Relaying? {
      RelayAnnounces(now, db, t, a, r);
    } else {
      OthersAnnounce(job, now, db, t, a, r);
    }
  }

  lemma NoticesTask(w: World, i: nat, a: Answer, r: nat)
    requires Inv(w) && NoticesOk(w, r) && i < |w.tasks|
    ensures NoticesOk(StepTask(w, i, a), r)
  {
    hide Execute, Told, Tracked, Overwritten, DbOk, Announces, TellsEnd;
    var t := w.tasks[i];
    assert TaskOk(t, w.db.rows);
    var e := Execute(w.job, w.now, w.db, t, Told(w, t, a));
    ExecuteAnnounces(w.job, w.now, w.db, t, Told(w, t, a), r);
    NoticesAfter(w, i, e, r);
    var w' := StepTask(w, i, a);
    assert w'.tasks == w.tasks[i := e.next] + e.spawned;
    RecordedNotices(w.history, e);
  }

  lemma RecordedNotices(history: seq<RowHistory>, e: Effect)
    ensures |Recorded(history, e)| == |history|
    ensures forall r :: 0 <= r < |history| ==> Recorded(history, e)[r].notices == history[r].notices
  {
  }

  lemma NoticesAfter(w: World, i: nat, e: Effect, r: nat)
    requires NoticesOk(w, r) && i < |w.tasks| && AnnouncesOn(w.db, w.tasks[i], e, r)
    ensures var t := w.tasks[i];
            var tasks := w.tasks[i := e.next] + e.spawned;
            var notices := w.history[r].notices + if t.NotifyHost? && t.row == r && TellsEnd(t.event) then 1 else 0;
            && notices <= (if e.db.rows[r].Terminal() then 1 else 0)
            && (forall j :: 0 <= j < |tasks| && Announces(tasks[j], r) ==> e.db.rows[r].Terminal() && notices == 0)
            && forall j, k :: 0 <= j < k < |tasks| ==> !(Announces(tasks[j], r) && Announces(tasks[k], r))
  {
    var t := w.tasks[i];
    assert t.NotifyHost? && t.row == r && TellsEnd(t.event) ==> Announces(t, r);
    hide Announces, TellsEnd;
    var tasks := w.tasks[i := e.next] + e.spawned;
    forall j, k | 0 <= j < k < |tasks| ensures !(Announces(tasks[j], r) && Announces(tasks[k], r)) {
    }
  }

  lemma NoticesStep(w: World, act: Action, r: nat)
    requires Inv(w) && NoticesOk(w, r)
    ensures NoticesOk(Next(w, act), r)
  {
    hide StepTask, Polls, Accepted, DueForRetry, DueForTimeout, DbOk;
    if act.Step? && act.task < |w.tasks| {
      NoticesTask(w, act.task, act.answer, r);
    }
  }

  lemma {:induction false} NoticesRun(w: World, acts: seq<Action>, r: nat)
    requires Inv(w) && NoticesOk(w, r)
    ensures NoticesOk(Run(w, acts), r)
    decreases |acts|
  {
    hide Next, Inv, NoticesOk;
    if acts != [] {
      NextOk(w, acts[0]);
      NoticesStep(w, acts[0], r);
      NoticesRun(Next(w, acts[0]), acts[1..], r);
    }
  }

  /** Over any run the browser is notified of the end of a row at most once, and only after it. */
  lemma EndsAnnouncedOnce(job: Job, n: nat, now: int, acts: seq<Action>, r: nat)
    requires r < n
    ensures var w := Run(Initial(job, n, now), acts);
            && |w.history| == |w.db.rows| == n
            && w.history[r].notices <= (if w.db.rows[r].Terminal() then 1 else 0)
  {
    InitialOk(job, n, now);
    RunOk(Initial(job, n, now), acts);
    NoticesRun(Initial(job, n, now), acts, r);
  }

  /** The relay's tracked set covers its live tasks, no two of which share a row. */
  predicate RelaysOk(w: World) {
    && (forall i :: 0 <= i < |w.tasks| && RelayRow(w.tasks[i]).Some? ==>
          RelayRow(w.tasks[i]).value in w.relays)
    && forall i, j :: 0 <= i < j < |w.tasks| && RelayRow(w.tasks[i]).Some? ==>
         RelayRow(w.tasks[i]) != RelayRow(w.tasks[j])
  }

  lemma ExecuteKeepsRelay(job: Job, now: int, db: Db, t: Task, a: Answer)
    requires TaskOk(t, db.rows)
    ensures var e := Execute(job, now, db, t, a);
            && (RelayRow(e.next).Some? ==> RelayRow(e.next) == RelayRow(t))
            && (if t.AttachRelays? then
                  RelayRow(t).None? && e.spawned == if t.rows != [] && a.ok then [Listen(t.rows[0])] else []
                else forall k :: 0 <= k < |e.spawned| ==> RelayRow(e.spawned[k]).None?)
  {
    hide ExecutorRollup, RelayRollup, OpenCount;
  }

  lemma RelaysTask(w: World, i: nat, a: Answer)
    requires Inv(w) && RelaysOk(w) && i < |w.tasks|
    ensures RelaysOk(StepTask(w, i, a))
  {
    hide Execute, Recorded;
    ExecuteKeepsRelay(w.job, w.now, w.db, w.tasks[i], Told(w, w.tasks[i], a));
  }

  lemma RelaysStep(w: World, act: Action)
    requires Inv(w) && RelaysOk(w)
    ensures RelaysOk(Next(w, act))
  {
    hide StepTask;
    if act.Step? && act.task < |w.tasks| {
      RelaysTask(w, act.task, act.answer);
    }
  }

  lemma {:induction false} RelaysRun(w: World, acts: seq<Action>)
    requires Inv(w) && RelaysOk(w)
    ensures RelaysOk(Run(w, acts))
    decreases |acts|
  {
    if acts != [] {
      NextOk(w, acts[0]);
      RelaysStep(w, acts[0]);
      RelaysRun(Next(w, acts[0]), acts[1..]);
    }
  }

  /** In every reachable state at most one relay task per host is alive. */
  lemma OneRelayPerHost(job: Job, n: nat, now: int, acts: seq<Action>)
    requires n > 0
    ensures var tasks := Run(Initial(job, n, now), acts).tasks;
            forall i, j :: 0 <= i < j < |tasks| && RelayRow(tasks[i]).Some? ==>
              RelayRow(tasks[i]) != RelayRow(tasks[j])
  {
    InitialOk(job, n, now);
    RelaysRun(Initial(job, n, now), acts);
  }
}
