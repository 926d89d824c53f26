/**
  A queued host of a job that is not immediate is dispatched while some queued host of
  the job has an open window. This tells when a host can be in the queue: at which
  times some continuation puts it there, by what its row and the tasks in flight say.
*/
module JobWindows {
  import opened Wrappers
  import opened JobRows
  import opened JobRollup
  import opened JobProtocol
  import opened JobSafety
  import opened JobProgress
  import opened JobRetries
  import opened JobHands

  // ---------------------------------------------------------------------------
  // Ways into the queue
  // ---------------------------------------------------------------------------

  /** A failure handled now leads to a retry that is due by `t`. */
  predicate RetryBy(now: int, row: HostRow, t: int) {
    row.retryCount < 3 && now + RetryDelay(row.retryCount + 1) <= t
  }

  /** From the window gate a row comes back five minutes later, or fails, as its window is open or not. */
  ghost predicate GateBy(job: Job, now: int, row: HostRow, q: nat, t: int) {
    exists u: int :: now <= u && if job.open(q, u) then u + 300 <= t else RetryBy(u, row, t)
  }

  /** The row itself can be in the queue at `t`. */
  predicate RowGives(now: int, row: HostRow, t: int) {
    || row.status.Queued?
    || (BacksOff(row) && row.retryNextAt.Some? && row.retryNextAt.value <= t)
    || (Pollable(row) && RetryBy(now, row, t))
  }

  /** The task can bring the row to the failure handler at once. */
  predicate FailsNow(relays: set<nat>, row: HostRow, task: Task, q: nat) {
    match task
    case FetchHost(p) => p == q
    case HealthGate(p) => p == q
    case FetchJob(p) => p == q
    case WriteRunning(p) => p == q
    case CallAgent(p) => p == q
    case WriteAgentJob(p, _) => p == q && row.status.Running?
    case ReadRetry(p, _) => p == q
    case PollAgent(p) => p == q
    case ConfirmUpgrade(p, _) => p == q
    case AttachRelays(ps) => q in ps && q !in relays
    case Listen(p) => p == q
    case ApplyAgentEvent(p, _, status) => p == q && status.Running?
    case NotifyHost(p, event) => p == q && !event.StopsRelay()
    case _ => false
  }

  predicate Gates(task: Task, q: nat) {
    match task
    case FetchHost(p) => p == q
    case HealthGate(p) => p == q
    case WindowGate(p) => p == q
    case _ => false
  }

  /** The task can put the row into the queue, to be there at `t`. */
  ghost predicate TaskGives(job: Job, now: int, relays: set<nat>, row: HostRow, task: Task, q: nat, t: int) {
    || (match task
        case ResetRows(ps) => q in ps
        case WritePending(p, _, retryAt, _) => p == q && retryAt <= t
        case WriteWaiting(p, retryAt) => p == q && retryAt <= t
        case _ => false)
    || (FailsNow(relays, row, task, q) && RetryBy(now, row, t))
    || (Gates(task, q) && GateBy(job, now, row, q, t))
  }

  /** Some continuation has the host in the queue at time `t`. */
  ghost predicate CanBeQueued(w: World, q: nat, t: int) {
    && q < |w.db.rows| && !w.db.rows[q].Terminal() && w.now <= t
    && (|| RowGives(w.now, w.db.rows[q], t)
        || exists i :: 0 <= i < |w.tasks| && TaskGives(w.job, w.now, w.relays, w.db.rows[q], w.tasks[i], q, t))
  }

  // ---------------------------------------------------------------------------
  // No step opens a new way
  // ---------------------------------------------------------------------------

  /** What was there before the step of task `task`. */
  ghost predicate Gave(job: Job, now: int, relays: set<nat>, row: HostRow, task: Task, q: nat, t: int) {
    RowGives(now, row, t) || TaskGives(job, now, relays, row, task, q, t)
  }

  /** A step opens a way to the queue only where there was one. */
  ghost predicate GivesNoMore(job: Job, now: int, relays: set<nat>, db: Db, task: Task, e: Effect, q: nat, t: int)
    requires q < |db.rows|
  {
    && |e.db.rows| == |db.rows|
    && var row, row' := db.rows[q], e.db.rows[q];
       !row.Terminal() && !row'.Terminal() ==>
         && (RowGives(now, row', t) ==> Gave(job, now, relays, row, task, q, t))
         && (TaskGives(job, now, relays, row', e.next, q, t) ==> Gave(job, now, relays, row, task, q, t))
         && (forall k :: 0 <= k < |e.spawned| && TaskGives(job, now, relays, row', e.spawned[k], q, t) ==>
               Gave(job, now, relays, row, task, q, t))
         && (row'.status.Running? && !row.status.Running? && RetryBy(now, row', t) ==>
               Gave(job, now, relays, row, task, q, t))
         && row'.retryCount == row.retryCount
  }

  /** The answer of a task that asks for tracked rows or windows is the true one. */
  predicate Truthful(job: Job, now: int, relays: set<nat>, task: Task, a: Answer) {
    match task
    case AttachRelays(rs) => rs != [] ==> (a.ok <==> rs[0] !in relays)
    case WindowGate(r) => a.ok <==> job.open(r, now)
    case _ => true
  }

  lemma DispatchGives(job: Job, now: int, relays: set<nat>, db: Db, task: Task, a: Answer, q: nat, t: int)
    requires InRange(task, |db.rows|) && q < |db.rows| && RoleOf(task).Dispatching?
    requires Truthful(job, now, relays, task, a) && now <= t
    ensures GivesNoMore(job, now, relays, db, task, DispatchStep(now, db, task, a), q, t)
  {
    if task.WindowGate? && task.row == q {
      GateOpens(job, now, db.rows[q], q, t);
    }
  }

  lemma GateOpens(job: Job, now: int, row: HostRow, q: nat, t: int)
    ensures (if job.open(q, now) then now + 300 <= t else RetryBy(now, row, t)) ==> GateBy(job, now, row, q, t)
  {
  }

  lemma FailureGives(job: Job, now: int, relays: set<nat>, db: Db, task: Task, q: nat, t: int)
    requires InRange(task, |db.rows|) && q < |db.rows| && RoleOf(task).Failing? && now <= t
    requires !Pends(task, q) || db.rows[q].Terminal()
    ensures GivesNoMore(job, now, relays, db, task, FailureStep(now, db, task), q, t)
  {
    hide GateBy;
  }

  lemma PollGives(job: Job, now: int, relays: set<nat>, db: Db, task: Task, a: Answer, q: nat, t: int)
    requires InRange(task, |db.rows|) && q < |db.rows| && RoleOf(task).Polling? && now <= t
    ensures GivesNoMore(job, now, relays, db, task, PollStep(job, now, db, task, a), q, t)
  {
    hide GateBy, ExecutorRollup;
  }

  lemma ScanGives(job: Job, now: int, relays: set<nat>, db: Db, task: Task, a: Answer, q: nat, t: int)
    requires InRange(task, |db.rows|) && q < |db.rows| && RoleOf(task).Scanning? && now <= t
    ensures GivesNoMore(job, now, relays, db, task, ScanStep(now, db, task, a), q, t)
  {
    hide GateBy;
    if task.rows != [] {
      assert task.rows[0] in task.rows && task.rows == [task.rows[0]] + task.rows[1..];
    }
  }

  lemma RelayGives(job: Job, now: int, relays: set<nat>, db: Db, task: Task, a: Answer, q: nat, t: int)
    requires TaskOk(task, db.rows) && TaskSound(task, now, db.rows) && q < |db.rows| && RoleOf(task).Relaying?
    requires Truthful(job, now, relays, task, a) && now <= t
    ensures GivesNoMore(job, now, relays, db, task, RelayStep(now, db, task, a), q, t)
  {
    hide GateBy, RelayRollup, OpenCount;
    if task.AttachRelays? && task.rows != [] {
      assert task.rows[0] in task.rows && task.rows == [task.rows[0]] + task.rows[1..];
    }
  }

  lemma ExecuteGives(job: Job, now: int, relays: set<nat>, db: Db, task: Task, a: Answer, q: nat, t: int)
    requires TaskOk(task, db.rows) && TaskSound(task, now, db.rows) && q < |db.rows|
    requires Truthful(job, now, relays, task, a) && now <= t
    requires !Pends(task, q) || db.rows[q].Terminal()
    ensures GivesNoMore(job, now, relays, db, task, Execute(job, now, db, task, a), q, t)
  {
    hide DispatchStep, FailureStep, PollStep, ScanStep, RelayStep, GateBy;
    match RoleOf(task)
    case Idle =>
    case Queueing =>
    case Dispatching => DispatchGives(job, now, relays, db, task, a, q, t);
    case Failing => FailureGives(job, now, relays, db, task, q, t);
    case Polling => PollGives(job, now, relays, db, task, a, q, t);
    case Scanning => ScanGives(job, now, relays, db, task, a, q, t);
    case Relaying => RelayGives(job, now, relays, db, task, a, q, t);
  }

  /** A retry written to the row: its own way was there before, and no other is quicker now. */
  lemma LandingGives(job: Job, now: int, relays: set<nat>, row: HostRow, row': HostRow, task: Task, x: Task, q: nat, t: int)
    requires Pends(task, q) && TaskSound(task, now, []) && 1 <= task.count <= 3 && now <= t
    requires row'.status.Pending? && row'.retryCount == task.count && row'.retryNextAt == Some(task.retryAt)
    ensures RowGives(now, row', t) ==> TaskGives(job, now, relays, row, task, q, t)
    ensures TaskGives(job, now, relays, row', x, q, t) ==>
              TaskGives(job, now, relays, row, task, q, t) || TaskGives(job, now, relays, row, x, q, t)
  {
    if RetryBy(now, row', t) {
      assert task.retryAt <= t;
    }
    if Gates(x, q) && GateBy(job, now, row', q, t) {
      var u: int :| now <= u && if job.open(q, u) then u + 300 <= t else RetryBy(u, row', t);
      if job.open(q, u) {
        assert GateBy(job, now, row, q, t);
      } else {
        assert task.retryAt <= t;
      }
    }
  }

  /** A row that is no longer tracked lost its relay, which could have brought it to the poller. */
  lemma LostRelayGives(w: World, i: nat, a: Answer, q: nat, t: int)
    requires Good(w) && i < |w.tasks| && q < |w.db.rows| && !w.db.rows[q].Terminal()
    requires InRange(w.tasks[i], |w.db.rows|) && q in w.relays && q !in StepTask(w, i, a).relays
    requires RetryBy(w.now, w.db.rows[q], t)
    ensures TaskGives(w.job, w.now, w.relays, w.db.rows[q], w.tasks[i], q, t)
  {
    hide GateBy, Known, InHand, Inv, RelayRollup, OpenCount, Recorded, Noticed, Overwritten;
    assert TaskSound(w.tasks[i], w.now, w.db.rows);
    var task := w.tasks[i];
    var e := Execute(w.job, w.now, w.db, task, Told(w, task, a));
    assert RelayRow(task) == Some(q) && RelayRow(e.next).None?;
  }

  /** Another task's way, seen from before the step. */
  lemma OtherGave(w: World, i: nat, a: Answer, x: Task, q: nat, t: int)
    requires Good(w) && i < |w.tasks| && q < |w.db.rows| && w.now <= t
    requires InRange(w.tasks[i], |w.db.rows|)
    requires var e := Execute(w.job, w.now, w.db, w.tasks[i], Told(w, w.tasks[i], a));
             && GivesNoMore(w.job, w.now, w.relays, w.db, w.tasks[i], e, q, t)
             && !w.db.rows[q].Terminal() && !e.db.rows[q].Terminal()
             && TaskGives(w.job, w.now, StepTask(w, i, a).relays, e.db.rows[q], x, q, t)
    ensures var e := Execute(w.job, w.now, w.db, w.tasks[i], Told(w, w.tasks[i], a));
            || Gave(w.job, w.now, w.relays, w.db.rows[q], w.tasks[i], q, t)
            || (TaskGives(w.job, w.now, w.relays, w.db.rows[q], x, q, t)
                && TaskGives(w.job, w.now, w.relays, e.db.rows[q], x, q, t))
  {
    hide Execute, GateBy, Good, StepTask, RowGives;
    var e := Execute(w.job, w.now, w.db, w.tasks[i], Told(w, w.tasks[i], a));
    var row, row' := w.db.rows[q], e.db.rows[q];
    assert GateBy(w.job, w.now, row', q, t) == GateBy(w.job, w.now, row, q, t) by { SameGate(w.job, w.now, row, row', q, t); }
    if x.AttachRelays? && q in w.relays && q !in StepTask(w, i, a).relays && RetryBy(w.now, row', t) {
      LostRelayGives(w, i, a, q, t);
    }
  }

  lemma SameGate(job: Job, now: int, row: HostRow, row': HostRow, q: nat, t: int)
    requires row.retryCount == row'.retryCount
    ensures GateBy(job, now, row, q, t) <==> GateBy(job, now, row', q, t)
  {
  }

  lemma BackTask(w: World, i: nat, a: Answer, q: nat, t: int)
    requires Good(w) && i < |w.tasks| && CanBeQueued(Next(w, Step(i, a)), q, t)
    ensures CanBeQueued(w, q, t)
  {
    assert TaskOk(w.tasks[i], w.db.rows) && TaskSound(w.tasks[i], w.now, w.db.rows);
    StepTaskOk(w, i, a);
    StepCounts(w, Step(i, a), q);
    var w' := StepTask(w, i, a);
    assert Later(w.db.rows[q], w'.db.rows[q]);
    if Pends(w.tasks[i], q) {
      BackLanding(w, i, a, q, t);
    } else {
      BackOther(w, i, a, q, t);
    }
  }

  lemma BackLanding(w: World, i: nat, a: Answer, q: nat, t: int)
    requires Good(w) && i < |w.tasks| && Pends(w.tasks[i], q) && CanBeQueued(Next(w, Step(i, a)), q, t)
    requires q < |w.db.rows| && !w.db.rows[q].Terminal()
    ensures CanBeQueued(w, q, t)
  {
    var task := w.tasks[i];
    assert TaskOk(task, w.db.rows) && TaskSound(task, w.now, w.db.rows);
    var w' := Next(w, Step(i, a));
    assert w'.db.rows[q] == w.db.rows[q].MarkPending(task.count, task.retryAt, task.error);
    assert w'.tasks == w.tasks[i := Done] && w'.relays == w.relays;
    hide TaskGives, RowGives, Good, Next;
    var row, row' := w.db.rows[q], w'.db.rows[q];
    LandingGives(w.job, w.now, w.relays, row, row', task, Done, q, t);
    assert !TaskGives(w.job, w.now, w.relays, row', Done, q, t) by { DoneGivesNothing(w.job, w.now, w.relays, row', q, t); }
    if !RowGives(w'.now, row', t) {
      var j :| 0 <= j < |w'.tasks| && TaskGives(w'.job, w'.now, w'.relays, row', w'.tasks[j], q, t);
      assert j != i;
      LandingGives(w.job, w.now, w.relays, row, row', task, w.tasks[j], q, t);
    }
  }

  lemma DoneGivesNothing(job: Job, now: int, relays: set<nat>, row: HostRow, q: nat, t: int)
    ensures !TaskGives(job, now, relays, row, Done, q, t)
  {
  }

  lemma BackOther(w: World, i: nat, a: Answer, q: nat, t: int)
    requires Good(w) && i < |w.tasks| && !Pends(w.tasks[i], q) && CanBeQueued(Next(w, Step(i, a)), q, t)
    requires q < |w.db.rows| && !w.db.rows[q].Terminal()
    ensures CanBeQueued(w, q, t)
  {
    hide TaskGives, RowGives, Execute, Recorded, Noticed, Overwritten, Tracked;
    var task := w.tasks[i];
    assert TaskOk(task, w.db.rows) && TaskSound(task, w.now, w.db.rows);
    var e := Execute(w.job, w.now, w.db, task, Told(w, task, a));
    ExecuteGives(w.job, w.now, w.relays, w.db, task, Told(w, task, a), q, t);
    hide Good;
    var w' := StepTask(w, i, a);
    assert w'.tasks == w.tasks[i := e.next] + e.spawned;
    var row, row' := w.db.rows[q], e.db.rows[q];
    if !RowGives(w.now, row', t) {
      var j :| 0 <= j < |w'.tasks| && TaskGives(w'.job, w'.now, w'.relays, row', w'.tasks[j], q, t);
      OtherGave(w, i, a, w'.tasks[j], q, t);
      if j >= |w.tasks| {
        assert w'.tasks[j] == e.spawned[j - |w.tasks|];
      } else if j != i {
        assert w'.tasks[j] == w.tasks[j];
      }
    }
  }

  /** What a scan starts works on rows that it has found due. */
  predicate Found(now: int, rows: seq<HostRow>, task: Task) {
    match task
    case MarkJobRunning | FailRows(_) => true
    case PollAgent(r) => r < |rows| && Pollable(rows[r])
    case AttachRelays(rs) => forall r :: r in rs ==> r < |rows| && Pollable(rows[r])
    case ResetRows(rs) =>
      forall r :: r in rs ==> r < |rows| && BacksOff(rows[r]) && rows[r].retryNextAt.Some? && rows[r].retryNextAt.value <= now
    case _ => false
  }

  lemma StartsFound(w: World, act: Action, j: nat)
    requires !act.Step? && |w.tasks| <= j < |Next(w, act).tasks|
    ensures Found(w.now, w.db.rows, Next(w, act).tasks[j])
  {
    hide CanDispatch, StepTask;
  }

  lemma FoundGives(job: Job, now: int, relays: set<nat>, rows: seq<HostRow>, task: Task, q: nat, t: int)
    requires Found(now, rows, task) && q < |rows| && now <= t && TaskGives(job, now, relays, rows[q], task, q, t)
    ensures RowGives(now, rows[q], t)
  {
    hide GateBy;
  }

  /** What a scan starts gives nothing that the row did not. */
  lemma StartGives(w: World, act: Action, q: nat, t: int, j: nat)
    requires !act.Step? && q < |w.db.rows| && w.now <= t
    requires |w.tasks| <= j < |Next(w, act).tasks|
    requires TaskGives(w.job, w.now, w.relays, w.db.rows[q], Next(w, act).tasks[j], q, t)
    ensures RowGives(w.now, w.db.rows[q], t)
  {
    hide TaskGives, Next, RowGives, Found;
    StartsFound(w, act, j);
    FoundGives(w.job, w.now, w.relays, w.db.rows, Next(w, act).tasks[j], q, t);
  }

  /** Waiting does not make anything sooner. */
  lemma TickGives(job: Job, now: int, now': int, relays: set<nat>, row: HostRow, task: Task, q: nat, t: int)
    requires now <= now'
    ensures RowGives(now', row, t) ==> RowGives(now, row, t)
    ensures TaskGives(job, now', relays, row, task, q, t) ==> TaskGives(job, now, relays, row, task, q, t)
  {
    if GateBy(job, now', row, q, t) {
      var u: int :| now' <= u && if job.open(q, u) then u + 300 <= t else RetryBy(u, row, t);
      assert now <= u;
    }
  }

  /** No step, of whatever kind, opens a new way into the queue. */
  lemma BackStep(w: World, act: Action, q: nat, t: int)
    requires Good(w) && CanBeQueued(Next(w, act), q, t)
    ensures CanBeQueued(w, q, t)
  {
    hide StepTask, TaskGives, RowGives, Good;
    var w' := Next(w, act);
    if act.Step? {
      if act.task < |w.tasks| {
        BackTask(w, act.task, act.answer, q, t);
      }
    } else {
      TickGives(w.job, w.now, w'.now, w.relays, w.db.rows[q], Done, q, t);
      if !RowGives(w'.now, w.db.rows[q], t) {
        var j :| 0 <= j < |w'.tasks| && TaskGives(w'.job, w'.now, w'.relays, w.db.rows[q], w'.tasks[j], q, t);
        TickGives(w.job, w.now, w'.now, w.relays, w.db.rows[q], w'.tasks[j], q, t);
        if j >= |w.tasks| {
          StartGives(w, act, q, t, j);
        } else {
          assert w'.tasks[j] == w.tasks[j];
        }
      }
    }
  }

  // ---------------------------------------------------------------------------
  // Every way can be taken
  // ---------------------------------------------------------------------------

  /** A continuation that has the row in the queue at `t`, ends no row, and leaves other queued rows queued. */
  ghost predicate Queues(w: World, v: World, q: nat, t: int) {
    && Leads(w, v) && Good(v) && v.job == w.job && v.now == t
    && EndsNone(w, v) && KeepsRollups(w, v) && KeepsQueued(w, v, q)
    && q < |v.db.rows| && v.db.rows[q].status.Queued?
  }

  lemma QueuesFirst(w: World, act: Action, v: World, q: nat, t: int)
    requires !act.Restart? && Queues(Next(w, act), v, q, t)
    requires EndsNone(w, Next(w, act)) && KeepsRollups(w, Next(w, act)) && KeepsQueued(w, Next(w, act), q)
    ensures Queues(w, v, q, t)
  {
    JobStays(w, act);
    hide Next, Good;
    LeadsFirst(w, act, v);
  }

  lemma QueuesAlready(w: World, q: nat, t: int) returns (v: World)
    requires Good(w) && q < |w.db.rows| && w.db.rows[q].status.Queued? && w.now <= t
    ensures Queues(w, v, q, t)
  {
    StartsQuietly(w, Tick(t - w.now));
    v := Next(w, Tick(t - w.now));
    assert v.now == t;
    hide Good, Next;
    LeadsNowhere(v);
    LeadsFirst(w, Tick(t - w.now), v);
  }

  lemma {:induction false} QueuesByReset(w: World, i: nat, q: nat, t: int) returns (v: World)
    requires Good(w) && i < |w.tasks| && w.tasks[i].ResetRows? && q in w.tasks[i].rows && OpenAt(w, q) && w.now <= t
    ensures Queues(w, v, q, t)
    decreases |w.tasks[i].rows|
  {
    StepsQuietly(w, i, BAD, q);
    ResetsTowards(w, i, q);
    var w' := Next(w, Step(i, BAD));
    hide Good, Next, Queues, EndsNone, KeepsRollups, KeepsQueued;
    if w.tasks[i].rows[0] == q {
      v := QueuesAlready(w', q, t);
    } else {
      v := QueuesByReset(w', i, q, t);
    }
    QueuesFirst(w, Step(i, BAD), v, q, t);
  }

  lemma ResetsTowards(w: World, i: nat, q: nat)
    requires Good(w) && i < |w.tasks| && w.tasks[i].ResetRows? && q in w.tasks[i].rows && OpenAt(w, q)
    ensures var rs := w.tasks[i].rows;
            var w' := Next(w, Step(i, BAD));
            && rs != [] && w'.now == w.now && i < |w'.tasks| && w'.tasks[i] == ResetRows(rs[1..]) && q < |w'.db.rows|
            && (if rs[0] == q then w'.db.rows[q].status.Queued? else w'.db.rows[q] == w.db.rows[q] && q in rs[1..])
  {
    var rs := w.tasks[i].rows;
    assert TaskOk(w.tasks[i], w.db.rows);
    assert rs[0] in rs && rs == [rs[0]] + rs[1..];
    StepsQuietly(w, i, BAD, q);
    hide Next, Good;
  }

  lemma QueuesBackingOff(w: World, q: nat, t: int) returns (v: World)
    requires Good(w) && q < |w.db.rows| && BacksOff(w.db.rows[q]) && w.now <= t
    requires w.db.rows[q].retryNextAt.Some? && w.db.rows[q].retryNextAt.value <= t
    ensures Queues(w, v, q, t)
  {
    OpenParent(w, q);
    var wait := Tick(t - w.now);
    StartsQuietly(w, wait);
    var w1 := Next(w, wait);
    StartsQuietly(w1, ScanRetries);
    var w2 := Next(w1, ScanRetries);
    assert RetryDue(w1.now, w1.db.parent, w1.db.rows[q]);
    assert w2.tasks[|w1.tasks|] == ResetRows(DueForRetry(w1.now, w1.db)) && w2.now == t;
    hide Good, Next, Queues, EndsNone, KeepsRollups, KeepsQueued;
    v := QueuesByReset(w2, |w1.tasks|, q, t);
    QueuesFirst(w1, ScanRetries, v, q, t);
    QueuesFirst(w, wait, v, q, t);
  }

  /** A retry or a wait about to be written. */
  lemma QueuesByWrite(w: World, i: nat, q: nat, t: int) returns (v: World)
    requires Good(w) && i < |w.tasks| && OpenAt(w, q) && w.now <= t
    requires (w.tasks[i].WritePending? || w.tasks[i].WriteWaiting?) && w.tasks[i].row == q && w.tasks[i].retryAt <= t
    ensures Queues(w, v, q, t)
  {
    StepsQuietly(w, i, BAD, q);
    var w' := Next(w, Step(i, BAD));
    assert BacksOff(w'.db.rows[q]) && w'.db.rows[q].retryNextAt == Some(w.tasks[i].retryAt);
    hide Good, Next, Queues, EndsNone, KeepsRollups, KeepsQueued;
    v := QueuesBackingOff(w', q, t);
    QueuesFirst(w, Step(i, BAD), v, q, t);
  }

  lemma QueuesByRetry(w: World, i: nat, q: nat, t: int) returns (v: World)
    requires Good(w) && i < |w.tasks| && w.tasks[i].ReadRetry? && w.tasks[i].row == q && OpenAt(w, q)
    requires RetryBy(w.now, w.db.rows[q], t)
    ensures Queues(w, v, q, t)
  {
    StepsQuietly(w, i, BAD, q);
    var w' := Next(w, Step(i, BAD));
    var retryAt := w.now + RetryDelay(w.db.rows[q].retryCount + 1);
    assert w'.tasks[i].WritePending? && w'.tasks[i].row == q && w'.tasks[i].retryAt == retryAt;
    hide Good, Next, Queues, EndsNone, KeepsRollups, KeepsQueued;
    v := QueuesByWrite(w', i, q, t);
    QueuesFirst(w, Step(i, BAD), v, q, t);
  }

  /** A task whose bad answer goes to the failure handler. */
  lemma QueuesByAnswer(w: World, i: nat, q: nat, error: Text, t: int) returns (v: World)
    requires Good(w) && i < |w.tasks| && CannotEnd(w.tasks[i]) && WritesOnly(w.tasks[i], q)
    requires InRange(w.tasks[i], |w.db.rows|) && OpenAt(w, q) && RetryBy(w.now, w.db.rows[q], t)
    requires Execute(w.job, w.now, w.db, w.tasks[i], Told(w, w.tasks[i], BAD)) == Goto(w.db, ReadRetry(q, error))
    ensures Queues(w, v, q, t)
  {
    StepsQuietly(w, i, BAD, q);
    var w' := Next(w, Step(i, BAD));
    assert w'.tasks[i] == ReadRetry(q, error);
    hide Good, Next, Queues, EndsNone, KeepsRollups, KeepsQueued, Execute;
    v := QueuesByRetry(w', i, q, t);
    QueuesFirst(w, Step(i, BAD), v, q, t);
  }

  lemma QueuesByPoll(w: World, i: nat, q: nat, t: int) returns (v: World)
    requires Good(w) && i < |w.tasks| && w.tasks[i] == PollAgent(q) && OpenAt(w, q) && RetryBy(w.now, w.db.rows[q], t)
    ensures Queues(w, v, q, t)
  {
    if w.job.kind.SelfUpgrade? {
      StepsQuietly(w, i, BAD, q);
      var w' := Next(w, Step(i, BAD));
      assert w'.tasks[i] == ConfirmUpgrade(q, 0) && w'.db == w.db;
      hide Good, Next, Queues, EndsNone, KeepsRollups, KeepsQueued;
      v := QueuesByAnswer(w', i, q, Raw(""), t);
      QueuesFirst(w, Step(i, BAD), v, q, t);
    } else {
      hide Good, Next, Queues, EndsNone, KeepsRollups, KeepsQueued;
      v := QueuesByAnswer(w, i, q, JobLost(""), t);
    }
  }

  lemma QueuesAccepted(w: World, q: nat, t: int) returns (v: World)
    requires Good(w) && q < |w.db.rows| && Pollable(w.db.rows[q]) && RetryBy(w.now, w.db.rows[q], t)
    ensures Queues(w, v, q, t)
  {
    var i := PollStarts(w, q);
    hide Good, Next, Queues, EndsNone, KeepsRollups, KeepsQueued;
    v := QueuesByPoll(Next(w, ScanRunning), i, q, t);
    QueuesFirst(w, ScanRunning, v, q, t);
  }

  /** The health checks pass, and then the job is not found. */
  lemma QueuesByHealth(w: World, i: nat, q: nat, t: int) returns (v: World)
    requires Good(w) && i < |w.tasks| && w.tasks[i] == HealthGate(q) && OpenAt(w, q) && RetryBy(w.now, w.db.rows[q], t)
    ensures Queues(w, v, q, t)
  {
    StepsQuietly(w, i, FINE, q);
    var w' := Next(w, Step(i, FINE));
    assert w'.tasks[i] == FetchJob(q) && w'.db == w.db;
    hide Good, Next, Queues, EndsNone, KeepsRollups, KeepsQueued;
    v := QueuesByAnswer(w', i, q, Raw(""), t);
    QueuesFirst(w, Step(i, FINE), v, q, t);
  }

  lemma QueuesByStart(w: World, i: nat, q: nat, t: int) returns (v: World)
    requires Good(w) && i < |w.tasks| && w.tasks[i] == WriteRunning(q) && OpenAt(w, q) && RetryBy(w.now, w.db.rows[q], t)
    ensures Queues(w, v, q, t)
  {
    StepsQuietly(w, i, FINE, q);
    var w' := Next(w, Step(i, FINE));
    assert w'.tasks[i] == CallAgent(q) && w'.db.rows[q] == w.db.rows[q].MarkRunning(w.now);
    hide Good, Next, Queues, EndsNone, KeepsRollups, KeepsQueued;
    v := QueuesByAnswer(w', i, q, Raw(""), t);
    QueuesFirst(w, Step(i, FINE), v, q, t);
  }

  lemma QueuesByAccept(w: World, i: nat, q: nat, t: int) returns (v: World)
    requires Good(w) && i < |w.tasks| && w.tasks[i].WriteAgentJob? && w.tasks[i].row == q
    requires q < |w.db.rows| && w.db.rows[q].status.Running? && RetryBy(w.now, w.db.rows[q], t)
    ensures Queues(w, v, q, t)
  {
    StepsQuietly(w, i, FINE, q);
    var w' := Next(w, Step(i, FINE));
    assert w'.db.rows[q] == w.db.rows[q].StoreAgentJob(w.tasks[i].agentJob);
    hide Good, Next, Queues, EndsNone, KeepsRollups, KeepsQueued;
    v := QueuesAccepted(w', q, t);
    QueuesFirst(w, Step(i, FINE), v, q, t);
  }

  // ---------------------------------------------------------------------------
  // By way of the relay
  // ---------------------------------------------------------------------------

  const RUNS := FINE.(event := Some(AgentEvent(AgentRunning, None, None)))

  /** An event that the agent runs puts the row where the poller finds it. */
  lemma EventRuns(w: World, i: nat, q: nat)
    requires Good(w) && i < |w.tasks| && w.tasks[i].ApplyAgentEvent? && w.tasks[i].row == q && w.tasks[i].status.Running?
    requires OpenAt(w, q)
    ensures var w' := Next(w, Step(i, FINE));
            && Good(w') && w'.now == w.now && w'.job == w.job
            && EndsNone(w, w') && KeepsRollups(w, w') && KeepsQueued(w, w', q)
            && q < |w'.db.rows| && Pollable(w'.db.rows[q]) && w'.db.rows[q].retryCount == w.db.rows[q].retryCount
  {
    GoodStep(w, Step(i, FINE));
    assert TaskOk(w.tasks[i], w.db.rows) && ServesAccepted(w.tasks[i], w.db.rows);
    assert Serves(w.tasks[i], q);
    hide Good, Recorded, Noticed, Tracked, Overwritten;
    EventWrites(w, i, q);
  }

  lemma EventWrites(w: World, i: nat, q: nat)
    requires i < |w.tasks| && w.tasks[i].ApplyAgentEvent? && w.tasks[i].row == q && w.tasks[i].status.Running?
    requires OpenAt(w, q)
    ensures var w' := Next(w, Step(i, FINE));
            && w'.now == w.now && w'.job == w.job && w'.tasks == w.tasks[i := NotifyHost(q, w.tasks[i].event)]
            && |w'.db.rows| == |w.db.rows| && w'.db.rows == w.db.rows[q := w'.db.rows[q]]
            && w'.db.rows[q].status.Running? && w'.db.rows[q].agentJobId == w.db.rows[q].agentJobId
            && w'.db.rows[q].retryCount == w.db.rows[q].retryCount
  {
  }

  lemma QueuesByEvent(w: World, i: nat, q: nat, t: int) returns (v: World)
    requires Good(w) && i < |w.tasks| && w.tasks[i].ApplyAgentEvent? && w.tasks[i].row == q && w.tasks[i].status.Running?
    requires OpenAt(w, q) && RetryBy(w.now, w.db.rows[q], t)
    ensures Queues(w, v, q, t)
  {
    EventRuns(w, i, q);
    hide Good, Next, Queues, EndsNone, KeepsRollups, KeepsQueued;
    v := QueuesAccepted(Next(w, Step(i, FINE)), q, t);
    QueuesFirst(w, Step(i, FINE), v, q, t);
  }

  lemma QueuesByListen(w: World, i: nat, q: nat, t: int) returns (v: World)
    requires Good(w) && i < |w.tasks| && w.tasks[i] == Listen(q) && OpenAt(w, q) && RetryBy(w.now, w.db.rows[q], t)
    ensures Queues(w, v, q, t)
  {
    StepsQuietly(w, i, RUNS, q);
    var w' := Next(w, Step(i, RUNS));
    assert w'.tasks[i] == ApplyAgentEvent(q, RUNS.event.value, Running) && w'.db == w.db;
    hide Good, Next, Queues, EndsNone, KeepsRollups, KeepsQueued;
    v := QueuesByEvent(w', i, q, t);
    QueuesFirst(w, Step(i, RUNS), v, q, t);
  }

  lemma QueuesByNotify(w: World, i: nat, q: nat, t: int) returns (v: World)
    requires Good(w) && i < |w.tasks| && w.tasks[i].NotifyHost? && w.tasks[i].row == q && !w.tasks[i].event.StopsRelay()
    requires OpenAt(w, q) && RetryBy(w.now, w.db.rows[q], t)
    ensures Queues(w, v, q, t)
  {
    StepsQuietly(w, i, FINE, q);
    var w' := Next(w, Step(i, FINE));
    assert w'.tasks[i] == Listen(q) && w'.db == w.db;
    hide Good, Next, Queues, EndsNone, KeepsRollups, KeepsQueued;
    v := QueuesByListen(w', i, q, t);
    QueuesFirst(w, Step(i, FINE), v, q, t);
  }

  lemma AttachStep(w: World, i: nat)
    requires i < |w.tasks| && w.tasks[i].AttachRelays? && w.tasks[i].rows != [] && InRange(w.tasks[i], |w.db.rows|)
    ensures var rs := w.tasks[i].rows;
            var spawned := if rs[0] in w.relays then [] else [Listen(rs[0])];
            Next(w, Step(i, FINE))
            == w.(tasks := w.tasks[i := AttachRelays(rs[1..])] + spawned,
                  relays := if rs[0] in w.relays then w.relays else w.relays + {rs[0]})
  {
  }

  lemma AttachesTowards(w: World, i: nat, q: nat)
    requires Good(w) && i < |w.tasks| && w.tasks[i].AttachRelays? && q in w.tasks[i].rows && q !in w.relays
    requires OpenAt(w, q)
    ensures var rs := w.tasks[i].rows;
            var w' := Next(w, Step(i, FINE));
            && rs != [] && Good(w') && w'.now == w.now && w'.job == w.job && w'.db == w.db
            && EndsNone(w, w') && KeepsRollups(w, w') && KeepsQueued(w, w', q)
            && (if rs[0] == q then |w'.tasks| > |w.tasks| && w'.tasks[|w.tasks|] == Listen(q)
                else i < |w'.tasks| && w'.tasks[i] == AttachRelays(rs[1..]) && q in rs[1..] && q !in w'.relays)
  {
    var rs := w.tasks[i].rows;
    assert TaskOk(w.tasks[i], w.db.rows);
    assert rs == [rs[0]] + rs[1..];
    GoodStep(w, Step(i, FINE));
    AttachStep(w, i);
    hide Good, Next;
  }

  lemma {:induction false} QueuesByAttach(w: World, i: nat, q: nat, t: int) returns (v: World)
    requires Good(w) && i < |w.tasks| && w.tasks[i].AttachRelays? && q in w.tasks[i].rows && q !in w.relays
    requires OpenAt(w, q) && RetryBy(w.now, w.db.rows[q], t)
    ensures Queues(w, v, q, t)
    decreases |w.tasks[i].rows|
  {
    AttachesTowards(w, i, q);
    var w' := Next(w, Step(i, FINE));
    hide Good, Next, Queues, EndsNone, KeepsRollups, KeepsQueued;
    if w.tasks[i].rows[0] == q {
      v := QueuesByListen(w', |w.tasks|, q, t);
    } else {
      v := QueuesByAttach(w', i, q, t);
    }
    QueuesFirst(w, Step(i, FINE), v, q, t);
  }

  // ---------------------------------------------------------------------------
  // Any way
  // ---------------------------------------------------------------------------

  lemma QueuesByFailure(w: World, i: nat, q: nat, t: int) returns (v: World)
    requires Good(w) && i < |w.tasks| && OpenAt(w, q) && InRange(w.tasks[i], |w.db.rows|)
    requires FailsNow(w.relays, w.db.rows[q], w.tasks[i], q) && RetryBy(w.now, w.db.rows[q], t)
    ensures Queues(w, v, q, t)
  {
    hide Good, Next, Queues;
    match w.tasks[i]
    case FetchHost(_) => v := QueuesByAnswer(w, i, q, Raw(""), t);
    case HealthGate(_) => v := QueuesByHealth(w, i, q, t);
    case FetchJob(_) => v := QueuesByAnswer(w, i, q, Raw(""), t);
    case WriteRunning(_) => v := QueuesByStart(w, i, q, t);
    case CallAgent(_) => v := QueuesByAnswer(w, i, q, Raw(""), t);
    case WriteAgentJob(_, _) => v := QueuesByAccept(w, i, q, t);
    case ReadRetry(_, _) => v := QueuesByRetry(w, i, q, t);
    case PollAgent(_) => v := QueuesByPoll(w, i, q, t);
    case ConfirmUpgrade(_, _) => v := QueuesByAnswer(w, i, q, Raw(""), t);
    case AttachRelays(_) => v := QueuesByAttach(w, i, q, t);
    case Listen(_) => v := QueuesByListen(w, i, q, t);
    case ApplyAgentEvent(_, _, _) => v := QueuesByEvent(w, i, q, t);
    case NotifyHost(_, _) => v := QueuesByNotify(w, i, q, t);
  }

  /** At the window gate, with the window as it is now. */
  lemma QueuesAtGate(w: World, i: nat, q: nat, t: int) returns (v: World)
    requires Good(w) && i < |w.tasks| && w.tasks[i] == WindowGate(q) && OpenAt(w, q)
    requires if w.job.open(q, w.now) then w.now + 300 <= t else RetryBy(w.now, w.db.rows[q], t)
    ensures Queues(w, v, q, t)
  {
    StepsQuietly(w, i, BAD, q);
    var w' := Next(w, Step(i, BAD));
    assert w'.db == w.db && w'.now == w.now;
    assert w'.tasks[i] == if w.job.open(q, w.now) then WriteWaiting(q, w.now + 300) else ReadRetry(q, WindowClosed);
    hide Good, Next, Queues, EndsNone, KeepsRollups, KeepsQueued;
    if w.job.open(q, w.now) {
      v := QueuesByWrite(w', i, q, t);
    } else {
      v := QueuesByRetry(w', i, q, t);
    }
    QueuesFirst(w, Step(i, BAD), v, q, t);
  }

  /** A dispatch that goes to the window gate. */
  lemma {:induction false} QueuesByGate(w: World, i: nat, q: nat, t: int) returns (v: World)
    requires Good(w) && i < |w.tasks| && Gates(w.tasks[i], q) && OpenAt(w, q)
    requires if w.job.open(q, w.now) then w.now + 300 <= t else RetryBy(w.now, w.db.rows[q], t)
    ensures Queues(w, v, q, t)
    decreases if w.tasks[i].FetchHost? then 2 else if w.tasks[i].HealthGate? then 1 else 0
  {
    if w.tasks[i].WindowGate? {
      v := QueuesAtGate(w, i, q, t);
    } else {
      var a := if w.tasks[i].FetchHost? then FINE else BAD;
      StepsQuietly(w, i, a, q);
      var w' := Next(w, Step(i, a));
      assert w'.db == w.db && w'.tasks[i] == if w.tasks[i].FetchHost? then HealthGate(q) else WindowGate(q);
      hide Good, Next, Queues, EndsNone, KeepsRollups, KeepsQueued;
      v := QueuesByGate(w', i, q, t);
      QueuesFirst(w, Step(i, a), v, q, t);
    }
  }

  lemma QueuesThroughGate(w: World, i: nat, q: nat, t: int) returns (v: World)
    requires Good(w) && i < |w.tasks| && Gates(w.tasks[i], q) && OpenAt(w, q) && GateBy(w.job, w.now, w.db.rows[q], q, t)
    ensures Queues(w, v, q, t)
  {
    var u: int :| w.now <= u && if w.job.open(q, u) then u + 300 <= t else RetryBy(u, w.db.rows[q], t);
    StartsQuietly(w, Tick(u - w.now));
    var w' := Next(w, Tick(u - w.now));
    assert w'.now == u && w'.tasks == w.tasks;
    hide Good, Next, Queues, EndsNone, KeepsRollups, KeepsQueued;
    v := QueuesByGate(w', i, q, t);
    QueuesFirst(w, Tick(u - w.now), v, q, t);
  }

  lemma QueuesByTask(w: World, i: nat, q: nat, t: int) returns (v: World)
    requires Good(w) && i < |w.tasks| && OpenAt(w, q) && w.now <= t && InRange(w.tasks[i], |w.db.rows|)
    requires TaskGives(w.job, w.now, w.relays, w.db.rows[q], w.tasks[i], q, t)
    ensures Queues(w, v, q, t)
  {
    hide Good, Queues;
    if FailsNow(w.relays, w.db.rows[q], w.tasks[i], q) && RetryBy(w.now, w.db.rows[q], t) {
      v := QueuesByFailure(w, i, q, t);
    } else if Gates(w.tasks[i], q) && GateBy(w.job, w.now, w.db.rows[q], q, t) {
      v := QueuesThroughGate(w, i, q, t);
    } else if w.tasks[i].ResetRows? {
      v := QueuesByReset(w, i, q, t);
    } else {
      v := QueuesByWrite(w, i, q, t);
    }
  }

  /** What can be queued at a time can be brought there. */
  lemma ReachesQueue(w: World, q: nat, t: int) returns (v: World)
    requires Good(w) && CanBeQueued(w, q, t)
    ensures Queues(w, v, q, t)
  {
    hide Queues, TaskGives;
    if w.db.rows[q].status.Queued? {
      v := QueuesAlready(w, q, t);
    } else if BacksOff(w.db.rows[q]) && w.db.rows[q].retryNextAt.Some? && w.db.rows[q].retryNextAt.value <= t {
      v := QueuesBackingOff(w, q, t);
    } else if Pollable(w.db.rows[q]) && RetryBy(w.now, w.db.rows[q], t) {
      v := QueuesAccepted(w, q, t);
    } else {
      var i :| 0 <= i < |w.tasks| && TaskGives(w.job, w.now, w.relays, w.db.rows[q], w.tasks[i], q, t);
      assert TaskOk(w.tasks[i], w.db.rows);
      v := QueuesByTask(w, i, q, t);
    }
  }

  predicate IsQueuedAt(v: World, q: nat, t: int) {
    v.now == t && q < |v.db.rows| && v.db.rows[q].status.Queued?
  }

  ghost predicate ComesToQueue(w: World, q: nat, t: int) {
    exists acts :: IsQueuedAt(Run(w, acts), q, t)
  }

  /** A host can be queued at a time exactly if what its row and the tasks say allows it. */
  lemma QueuedExactly(w: World, q: nat, t: int)
    requires Good(w)
    ensures CanBeQueued(w, q, t) <==> ComesToQueue(w, q, t)
  {
    hide CanBeQueued, Good, Next;
    if CanBeQueued(w, q, t) {
      var v := ReachesQueue(w, q, t);
      var acts :| Steady(acts) && Run(w, acts) == v;
      assert IsQueuedAt(Run(w, acts), q, t);
    }
    if ComesToQueue(w, q, t) {
      var acts :| IsQueuedAt(Run(w, acts), q, t);
      IsOneWay(Run(w, acts), q, t);
      BackRun(w, acts, q, t);
    }
  }

  lemma IsOneWay(v: World, q: nat, t: int)
    requires IsQueuedAt(v, q, t)
    ensures CanBeQueued(v, q, t)
  {
  }

  lemma {:induction false} BackRun(w: World, acts: seq<Action>, q: nat, t: int)
    requires Good(w) && CanBeQueued(Run(w, acts), q, t)
    ensures CanBeQueued(w, q, t)
    decreases |acts|
  {
    hide Next, Good, CanBeQueued;
    if acts != [] {
      GoodStep(w, acts[0]);
      BackRun(Next(w, acts[0]), acts[1..], q, t);
      BackStep(w, acts[0], q, t);
    }
  }
}
