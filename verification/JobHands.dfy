/**
  Which tasks have which rows in hand, and the invariants that says so: what one step
  passes on, and what only a restart can drop. The continuations built on it are runs
  without a restart.
*/
module JobHands {
  import opened Wrappers
  import opened JobRows
  import opened JobRollup
  import opened JobProtocol
  import opened JobSafety
  import opened JobProgress

  // ---------------------------------------------------------------------------
  // Which tasks have a row in hand
  // ---------------------------------------------------------------------------

  /** A running row that no poll will find, as the agent has not accepted it yet. */
  predicate Unaccepted(row: HostRow) {
    row.status.Running? && row.agentJobId.None?
  }

  /** The task may still act on the row, or start one that may. */
  predicate Touches(t: Task, r: nat) {
    match t
    case Done | MarkJobRunning | FetchQueued | CountHosts(_) | WriteParent(_) => false
    case ResetRows(rs) => r in rs
    case FailRows(rs) => r in rs
    case AttachRelays(rs) => r in rs
    case _ => t.row == r
  }

  /** The task works on rows that an agent has accepted. */
  predicate Serves(t: Task, r: nat) {
    match t
    case PollAgent(q) => q == r
    case ConfirmUpgrade(q, _) => q == r
    case WriteSucceeded(q, _) => q == r
    case AttachRelays(rs) => r in rs
    case _ => RelayRow(t) == Some(r)
  }

  ghost predicate ServesAccepted(t: Task, rows: seq<HostRow>) {
    forall r: nat :: Serves(t, r) ==> r < |rows| && rows[r].agentJobId.Some?
  }

  ghost predicate Known(w: World) {
    forall i :: 0 <= i < |w.tasks| ==> ServesAccepted(w.tasks[i], w.db.rows)
  }

  ghost predicate Good(w: World) {
    Inv(w) && Known(w) && Sound(w) && InHand(w)
  }

  /** The timeout scan looks after the job's rows. */
  predicate HasTimeout(job: Job) {
    !job.kind.SelfUpgrade? && job.timeoutSecs != 0
  }

  predicate Untouched(w: World, r: nat) {
    forall i :: 0 <= i < |w.tasks| ==> !Touches(w.tasks[i], r)
  }

  /** How a step passes a row on: nobody else changes it, and nobody drops it. */
  predicate PassesOn(before: Db, t: Task, e: Effect, r: nat)
    requires r < |before.rows|
  {
    && |e.db.rows| == |before.rows|
    && (before.rows[r].agentJobId.Some? ==> e.db.rows[r].agentJobId.Some?)
    && (!Touches(t, r) ==> e.db.rows[r] == before.rows[r] && !Touches(e.next, r))
    && (!Touches(t, r) && !(t.FetchQueued? && before.rows[r].status.Queued?) ==>
          forall k :: 0 <= k < |e.spawned| ==> !Touches(e.spawned[k], r))
    && (Touches(t, r) && Unaccepted(e.db.rows[r]) ==>
          Touches(e.next, r) || exists k :: 0 <= k < |e.spawned| && Touches(e.spawned[k], r))
    && (Serves(e.next, r) ==> Serves(t, r))
    && (forall k :: 0 <= k < |e.spawned| && Serves(e.spawned[k], r) ==> Serves(t, r))
  }

  /** The task is in range, and its row accepted if it serves one. */
  predicate Entitled(t: Task, rows: seq<HostRow>, r: nat) {
    r < |rows| && InRange(t, |rows|) && (Serves(t, r) ==> rows[r].agentJobId.Some?)
  }

  lemma DispatchPassesOn(now: int, db: Db, t: Task, a: Answer, r: nat)
    requires Entitled(t, db.rows, r) && RoleOf(t).Dispatching?
    ensures PassesOn(db, t, DispatchStep(now, db, t, a), r)
  {
  }

  lemma FailurePassesOn(now: int, db: Db, t: Task, r: nat)
    requires Entitled(t, db.rows, r) && RoleOf(t).Failing?
    ensures PassesOn(db, t, FailureStep(now, db, t), r)
  {
  }

  lemma PollPassesOn(job: Job, now: int, db: Db, t: Task, a: Answer, r: nat)
    requires Entitled(t, db.rows, r) && RoleOf(t).Polling?
    ensures PassesOn(db, t, PollStep(job, now, db, t, a), r)
  {
    hide ExecutorRollup;
  }

  lemma ResetPassesOn(now: int, db: Db, t: Task, a: Answer, r: nat)
    requires Entitled(t, db.rows, r) && t.ResetRows?
    ensures PassesOn(db, t, ScanStep(now, db, t, a), r)
  {
    var rs := t.rows;
    if rs != [] {
      assert rs[0] in rs && rs == [rs[0]] + rs[1..];
      var e := ScanStep(now, db, t, a);
      assert e.spawned == if db.rows[rs[0]].Terminal() then [] else [FetchHost(rs[0])];
      assert e.spawned != [] ==> Touches(e.spawned[0], rs[0]);
    }
  }

  lemma FailPassesOn(now: int, db: Db, t: Task, a: Answer, r: nat)
    requires Entitled(t, db.rows, r) && t.FailRows?
    ensures PassesOn(db, t, ScanStep(now, db, t, a), r)
  {
    var rs := t.rows;
    if rs != [] {
      assert rs[0] in rs && rs == [rs[0]] + rs[1..];
    }
  }

  lemma ScanPassesOn(now: int, db: Db, t: Task, a: Answer, r: nat)
    requires Entitled(t, db.rows, r) && RoleOf(t).Scanning?
    ensures PassesOn(db, t, ScanStep(now, db, t, a), r)
  {
    hide ScanStep, PassesOn, Entitled;
    match t
    case ResetRows(_) => ResetPassesOn(now, db, t, a, r);
    case FailRows(_) => FailPassesOn(now, db, t, a, r);
  }

  lemma RelayPassesOn(now: int, db: Db, t: Task, a: Answer, r: nat)
    requires Entitled(t, db.rows, r) && RoleOf(t).Relaying?
    ensures PassesOn(db, t, RelayStep(now, db, t, a), r)
  {
    hide RelayRollup, OpenCount;
    if t.AttachRelays? && t.rows != [] {
      assert t.rows[0] in t.rows && t.rows == [t.rows[0]] + t.rows[1..];
    }
  }

  lemma ExecutePassesOn(job: Job, now: int, db: Db, t: Task, a: Answer, r: nat)
    requires Entitled(t, db.rows, r)
    ensures PassesOn(db, t, Execute(job, now, db, t, a), r)
  {
    hide DispatchStep, FailureStep, PollStep, ScanStep, RelayStep;
    match RoleOf(t)
    case Idle =>
    case Queueing =>
    case Dispatching => DispatchPassesOn(now, db, t, a, r);
    case Failing => FailurePassesOn(now, db, t, r);
    case Polling => PollPassesOn(job, now, db, t, a, r);
    case Scanning => ScanPassesOn(now, db, t, a, r);
    case Relaying => RelayPassesOn(now, db, t, a, r);
  }

  /** What a step of a task leaves to do on a row. */
  lemma TaskPassesOn(w: World, i: nat, a: Answer, r: nat)
    requires Inv(w) && Known(w) && i < |w.tasks| && r < |w.db.rows|
    ensures var e := Execute(w.job, w.now, w.db, w.tasks[i], Told(w, w.tasks[i], a));
            PassesOn(w.db, w.tasks[i], e, r)
  {
    hide Execute, DbOk;
    assert TaskOk(w.tasks[i], w.db.rows);
    ExecutePassesOn(w.job, w.now, w.db, w.tasks[i], Told(w, w.tasks[i], a), r);
  }

  lemma KnownTask(w: World, i: nat, a: Answer)
    requires Inv(w) && Known(w) && i < |w.tasks|
    ensures Known(StepTask(w, i, a))
  {
    hide Execute, Recorded, Tracked, Overwritten, Serves, Touches, Unaccepted, DbOk;
    assert TaskOk(w.tasks[i], w.db.rows);
    hide TaskOk;
    var w' := StepTask(w, i, a);
    StepTaskOk(w, i, a);
    forall j | 0 <= j < |w'.tasks| ensures ServesAccepted(w'.tasks[j], w'.db.rows) {
      forall r: nat | Serves(w'.tasks[j], r) ensures r < |w'.db.rows| && w'.db.rows[r].agentJobId.Some? {
        ServedInRange(w'.tasks[j], w'.db.rows, r);
        TaskPassesOn(w, i, a, r);
        ServedBefore(w, i, a, j, r);
      }
    }
  }

  lemma ServedBefore(w: World, i: nat, a: Answer, j: nat, r: nat)
    requires i < |w.tasks| && r < |w.db.rows| && InRange(w.tasks[i], |w.db.rows|) && Known(w)
    requires PassesOn(w.db, w.tasks[i], Execute(w.job, w.now, w.db, w.tasks[i], Told(w, w.tasks[i], a)), r)
    requires j < |StepTask(w, i, a).tasks| && Serves(StepTask(w, i, a).tasks[j], r)
    ensures StepTask(w, i, a).db.rows[r].agentJobId.Some?
  {
    hide Execute, Recorded, Tracked, Overwritten, Serves, Touches, Unaccepted;
    var e := Execute(w.job, w.now, w.db, w.tasks[i], Told(w, w.tasks[i], a));
    assert ServesAccepted(w.tasks[i], w.db.rows);
    if j >= |w.tasks| {
      assert StepTask(w, i, a).tasks[j] == e.spawned[j - |w.tasks|];
    } else if j != i {
      assert ServesAccepted(w.tasks[j], w.db.rows);
    }
  }

  lemma ServedInRange(t: Task, rows: seq<HostRow>, r: nat)
    requires TaskOk(t, rows) && Serves(t, r)
    ensures r < |rows|
  {
  }

  lemma KnownStep(w: World, act: Action)
    requires Inv(w) && Known(w)
    ensures Known(Next(w, act))
  {
    hide StepTask, Inv, DueForRetry, DueForTimeout;
    if act.Step? {
      if act.task < |w.tasks| {
        KnownTask(w, act.task, act.answer);
      }
    } else {
      KnownStart(w, act);
    }
  }

  lemma PollsServeAccepted(rows: seq<HostRow>, k: nat)
    requires k < |Polls(rows)|
    ensures ServesAccepted(Polls(rows)[k], rows)
  {
  }

  lemma AttachServesAccepted(rows: seq<HostRow>)
    ensures ServesAccepted(AttachRelays(Accepted(rows)), rows)
  {
  }

  lemma StartServesAccepted(w: World, act: Action, j: nat)
    requires !act.Step? && |w.tasks| <= j < |Next(w, act).tasks|
    ensures ServesAccepted(Next(w, act).tasks[j], w.db.rows)
  {
    hide Polls, Accepted, DueForRetry, DueForTimeout;
    match act
    case ScanRunning => PollsServeAccepted(w.db.rows, j - |w.tasks|);
    case ScanRelays => AttachServesAccepted(w.db.rows);
    case _ =>
  }

  lemma KnownStart(w: World, act: Action)
    requires Known(w) && !act.Step?
    ensures Known(Next(w, act))
  {
    hide DueForRetry, DueForTimeout, Polls, Accepted, ServesAccepted;
    var w' := Next(w, act);
    forall j | 0 <= j < |w'.tasks| ensures ServesAccepted(w'.tasks[j], w'.db.rows) {
      if j < |w.tasks| {
        assert w'.tasks[j] == w.tasks[j];
      } else {
        StartServesAccepted(w, act, j);
      }
    }
  }

  // ---------------------------------------------------------------------------
  // What in-flight writes and notifications tell
  // ---------------------------------------------------------------------------

  /** A retry to be written is not further off than its delay, and an end announced has been. */
  predicate TaskSound(t: Task, now: int, rows: seq<HostRow>) {
    match t
    case WritePending(_, count, retryAt, _) => retryAt <= now + RetryDelay(count)
    case CountOpen(r, _) => r < |rows| && rows[r].Terminal()
    case CountOutcome(r, _) => r < |rows| && rows[r].Terminal()
    case WriteOutcome(r, _, _) => r < |rows| && rows[r].Terminal()
    case NotifyHost(r, event) => event.StopsRelay() ==> r < |rows| && rows[r].Terminal()
    case _ => true
  }

  predicate Sound(w: World) {
    forall i :: 0 <= i < |w.tasks| ==> TaskSound(w.tasks[i], w.now, w.db.rows)
  }

  lemma SoundStays(t: Task, now: int, later: int, before: seq<HostRow>, after: seq<HostRow>)
    requires TaskSound(t, now, before) && LaterRows(before, after) && now <= later
    ensures TaskSound(t, later, after)
  {
  }

  lemma RelaySound(now: int, db: Db, t: Task, a: Answer)
    requires TaskOk(t, db.rows) && TaskSound(t, now, db.rows) && RoleOf(t).Relaying?
    ensures var e := RelayStep(now, db, t, a);
            TaskSound(e.next, now, e.db.rows) && forall k :: 0 <= k < |e.spawned| ==> TaskSound(e.spawned[k], now, e.db.rows)
  {
    hide RelayRollup, OpenCount;
  }

  lemma OthersSound(job: Job, now: int, db: Db, t: Task, a: Answer)
    requires TaskOk(t, db.rows) && !RoleOf(t).Relaying?
    ensures var e := Execute(job, now, db, t, a);
            TaskSound(e.next, now, e.db.rows) && forall k :: 0 <= k < |e.spawned| ==> TaskSound(e.spawned[k], now, e.db.rows)
  {
    hide ExecutorRollup;
    if (t.ResetRows? || t.FailRows?) && t.rows != [] {
      assert t.rows[0] in t.rows;
    }
  }

  lemma ExecuteSound(job: Job, now: int, db: Db, t: Task, a: Answer)
    requires TaskOk(t, db.rows) && TaskSound(t, now, db.rows)
    ensures var e := Execute(job, now, db, t, a);
            TaskSound(e.next, now, e.db.rows) && forall k :: 0 <= k < |e.spawned| ==> TaskSound(e.spawned[k], now, e.db.rows)
  {
    hide RelayStep, TaskOk, TaskSound;
    if RoleOf(t).Relaying? {
      RelaySound(now, db, t, a);
    } else {
      OthersSound(job, now, db, t, a);
    }
  }

  lemma SoundTask(w: World, i: nat, a: Answer)
    requires Inv(w) && Sound(w) && i < |w.tasks|
    ensures Sound(StepTask(w, i, a))
  {
    hide Execute, Recorded, Noticed, Told, Tracked, Overwritten, DbOk, TaskSound;
    var t := w.tasks[i];
    assert TaskOk(t, w.db.rows);
    var e := Execute(w.job, w.now, w.db, t, Told(w, t, a));
    ExecuteSound(w.job, w.now, w.db, t, Told(w, t, a));
    StepTaskOk(w, i, a);
    var w' := StepTask(w, i, a);
    forall j | 0 <= j < |w'.tasks| ensures TaskSound(w'.tasks[j], w'.now, w'.db.rows) {
      if j < |w.tasks| && j != i {
        SoundStays(w.tasks[j], w.now, w.now, w.db.rows, e.db.rows);
      }
    }
  }

  lemma SoundStep(w: World, act: Action)
    requires Inv(w) && Sound(w)
    ensures Sound(Next(w, act))
  {
    hide StepTask, DueForRetry, DueForTimeout, DbOk;
    if act.Step? {
      if act.task < |w.tasks| {
        SoundTask(w, act.task, act.answer);
      }
    } else {
      var w' := Next(w, act);
      forall j | 0 <= j < |w'.tasks| ensures TaskSound(w'.tasks[j], w'.now, w'.db.rows) {
        if j < |w.tasks| {
          assert w'.tasks[j] == w.tasks[j];
        }
      }
    }
  }

  // ---------------------------------------------------------------------------
  // Queued rows
  // ---------------------------------------------------------------------------

  /** The task takes a queued row on, and out of the queue before it is done with it. */
  predicate Carries(t: Task, r: nat) {
    match t
    case FetchHost(q) => q == r
    case HealthGate(q) => q == r
    case WindowGate(q) => q == r
    case WriteWaiting(q, _) => q == r
    case FetchJob(q) => q == r
    case WriteRunning(q) => q == r
    case ReadRetry(q, _) => q == r
    case WritePending(q, _, _, _) => q == r
    case WriteFailed(q, _) => q == r
    case _ => false
  }

  predicate Carried(w: World, r: nat) {
    exists i :: 0 <= i < |w.tasks| && Carries(w.tasks[i], r)
  }

  /** A queued row is carried on, or no task in flight has anything to do with it. */
  predicate InHand(w: World) {
    forall r :: 0 <= r < |w.db.rows| && w.db.rows[r].status.Queued? ==> Carried(w, r) || Untouched(w, r)
  }

  /** Every queued row is carried on. */
  predicate Launched(w: World) {
    forall r :: 0 <= r < |w.db.rows| && w.db.rows[r].status.Queued? ==> Carried(w, r)
  }

  /** How a step carries a queued row on, or puts it back in the queue. */
  predicate CarriesOn(before: Db, t: Task, e: Effect, r: nat)
    requires r < |before.rows|
  {
    && |e.db.rows| == |before.rows|
    && (Carries(t, r) && e.db.rows[r].status.Queued? ==> Carries(e.next, r))
    && (e.db.rows[r].status.Queued? && !before.rows[r].status.Queued? ==>
          exists k :: 0 <= k < |e.spawned| && Carries(e.spawned[k], r))
    && forall k :: 0 <= k < |e.spawned| && !Touches(t, r) && Touches(e.spawned[k], r) ==> Carries(e.spawned[k], r)
  }

  lemma DispatchCarries(now: int, db: Db, t: Task, a: Answer, r: nat)
    requires InRange(t, |db.rows|) && r < |db.rows| && RoleOf(t).Dispatching?
    ensures CarriesOn(db, t, DispatchStep(now, db, t, a), r)
  {
  }

  lemma FailureCarries(now: int, db: Db, t: Task, r: nat)
    requires InRange(t, |db.rows|) && r < |db.rows| && RoleOf(t).Failing?
    ensures CarriesOn(db, t, FailureStep(now, db, t), r)
  {
  }

  lemma ScanCarries(now: int, db: Db, t: Task, a: Answer, r: nat)
    requires InRange(t, |db.rows|) && r < |db.rows| && RoleOf(t).Scanning?
    ensures CarriesOn(db, t, ScanStep(now, db, t, a), r)
  {
    if t.rows != [] {
      assert t.rows[0] in t.rows;
      var e := ScanStep(now, db, t, a);
      assert e.spawned != [] && t.ResetRows? ==> Carries(e.spawned[0], t.rows[0]);
    }
  }

  lemma RelayCarries(now: int, db: Db, t: Task, a: Answer, r: nat)
    requires InRange(t, |db.rows|) && TaskOk(t, db.rows) && r < |db.rows| && RoleOf(t).Relaying?
    ensures CarriesOn(db, t, RelayStep(now, db, t, a), r)
  {
    hide RelayRollup, OpenCount;
    if t.AttachRelays? && t.rows != [] {
      assert t.rows[0] in t.rows;
    }
  }

  lemma ExecuteCarries(job: Job, now: int, db: Db, t: Task, a: Answer, r: nat)
    requires TaskOk(t, db.rows) && r < |db.rows|
    ensures CarriesOn(db, t, Execute(job, now, db, t, a), r)
  {
    hide DispatchStep, FailureStep, ScanStep, RelayStep, ExecutorRollup;
    match RoleOf(t)
    case Dispatching => DispatchCarries(now, db, t, a, r);
    case Failing => FailureCarries(now, db, t, r);
    case Scanning => ScanCarries(now, db, t, a, r);
    case Relaying => RelayCarries(now, db, t, a, r);
    case _ =>
  }

  /** A carried row stays carried while it is queued. */
  lemma CarriedTask(w: World, i: nat, a: Answer, r: nat)
    requires Inv(w) && i < |w.tasks| && r < |w.db.rows|
    ensures var w' := StepTask(w, i, a);
            |w'.db.rows| == |w.db.rows|
            && (w'.db.rows[r].status.Queued? && (w.db.rows[r].status.Queued? ==> Carried(w, r)) ==> Carried(w', r))
  {
    hide Execute, Recorded, Noticed, Told, Tracked, Overwritten, DbOk, Carries;
    var t := w.tasks[i];
    assert TaskOk(t, w.db.rows);
    var e := Execute(w.job, w.now, w.db, t, Told(w, t, a));
    ExecuteCarries(w.job, w.now, w.db, t, Told(w, t, a), r);
    var w' := StepTask(w, i, a);
    if w'.db.rows[r].status.Queued? {
      if !w.db.rows[r].status.Queued? {
        var k :| 0 <= k < |e.spawned| && Carries(e.spawned[k], r);
        assert w'.tasks[|w.tasks| + k] == e.spawned[k];
      } else if Carried(w, r) {
        var j :| 0 <= j < |w.tasks| && Carries(w.tasks[j], r);
        assert j != i ==> w'.tasks[j] == w.tasks[j];
        assert w'.tasks[i] == e.next;
      }
    }
  }

  lemma InHandTask(w: World, i: nat, a: Answer)
    requires Inv(w) && Known(w) && InHand(w) && i < |w.tasks|
    ensures InHand(StepTask(w, i, a))
  {
    hide Execute, Recorded, Noticed, Told, Tracked, Overwritten, DbOk, Carries, Touches, Serves, Unaccepted;
    var t := w.tasks[i];
    assert TaskOk(t, w.db.rows);
    var e := Execute(w.job, w.now, w.db, t, Told(w, t, a));
    var w' := StepTask(w, i, a);
    StepTaskOk(w, i, a);
    forall r | 0 <= r < |w'.db.rows| && w'.db.rows[r].status.Queued? ensures Carried(w', r) || Untouched(w', r) {
      CarriedTask(w, i, a, r);
      if w.db.rows[r].status.Queued? && !Carried(w, r) {
        TaskPassesOn(w, i, a, r);
        ExecuteCarries(w.job, w.now, w.db, t, Told(w, t, a), r);
        UntouchedTask(w, i, e, r);
        assert w'.tasks == w.tasks[i := e.next] + e.spawned;
      }
    }
  }

  lemma UntouchedTask(w: World, i: nat, e: Effect, r: nat)
    requires i < |w.tasks| && r < |w.db.rows| && Untouched(w, r)
    requires PassesOn(w.db, w.tasks[i], e, r) && CarriesOn(w.db, w.tasks[i], e, r)
    ensures var tasks := w.tasks[i := e.next] + e.spawned;
            (exists j :: 0 <= j < |tasks| && Carries(tasks[j], r)) || forall j :: 0 <= j < |tasks| ==> !Touches(tasks[j], r)
  {
    hide Carries, Touches, Serves, Unaccepted;
    var tasks := w.tasks[i := e.next] + e.spawned;
    if j :| 0 <= j < |tasks| && Touches(tasks[j], r) {
      assert j >= |w.tasks| && tasks[j] == e.spawned[j - |w.tasks|];
      assert Carries(tasks[j], r);
    }
  }

  /** A scan starts nothing on a queued row. */
  lemma StartsUntouched(w: World, act: Action, r: nat, j: nat)
    requires !act.Step? && r < |w.db.rows| && w.db.rows[r].status.Queued?
    requires |w.tasks| <= j < |Next(w, act).tasks|
    ensures !Touches(Next(w, act).tasks[j], r)
  {
  }

  lemma InHandStep(w: World, act: Action)
    requires Inv(w) && Known(w) && InHand(w)
    ensures InHand(Next(w, act))
    ensures Launched(w) && !act.Restart? ==> Launched(Next(w, act))
  {
    hide StepTask, Inv, Known, Carries, Touches;
    if act.Step? {
      if act.task < |w.tasks| {
        InHandTask(w, act.task, act.answer);
        LaunchedTask(w, act.task, act.answer);
      }
    } else {
      var w' := Next(w, act);
      forall r | 0 <= r < |w'.db.rows| && w'.db.rows[r].status.Queued?
        ensures Carried(w', r) || Untouched(w', r)
        ensures Carried(w, r) && !act.Restart? ==> Carried(w', r)
      {
        HandsAfterStart(w, act, r);
      }
    }
  }

  lemma LaunchedTask(w: World, i: nat, a: Answer)
    requires Inv(w) && i < |w.tasks|
    ensures Launched(w) ==> Launched(StepTask(w, i, a))
  {
    hide StepTask, Carried, DbOk;
    assert TaskOk(w.tasks[i], w.db.rows);
    StepTaskOk(w, i, a);
    forall r | 0 <= r < |w.db.rows| && Launched(w) && StepTask(w, i, a).db.rows[r].status.Queued?
      ensures Carried(StepTask(w, i, a), r)
    {
      CarriedTask(w, i, a, r);
    }
  }

  lemma HandsAfterStart(w: World, act: Action, r: nat)
    requires !act.Step? && r < |w.db.rows| && w.db.rows[r].status.Queued? && (Carried(w, r) || Untouched(w, r))
    ensures Carried(Next(w, act), r) || Untouched(Next(w, act), r)
    ensures Carried(w, r) && !act.Restart? ==> Carried(Next(w, act), r)
  {
    hide Carries, Touches, DueForRetry, DueForTimeout, Polls, Accepted;
    var w' := Next(w, act);
    if Carried(w, r) && !act.Restart? {
      var j :| 0 <= j < |w.tasks| && Carries(w.tasks[j], r);
      assert w'.tasks[j] == w.tasks[j];
    } else if !act.Restart? {
      forall j | 0 <= j < |w'.tasks| ensures !Touches(w'.tasks[j], r) {
        if j >= |w.tasks| {
          StartsUntouched(w, act, r, j);
        } else {
          assert w'.tasks[j] == w.tasks[j];
        }
      }
    }
  }

  // ---------------------------------------------------------------------------
  // All of it, over any run
  // ---------------------------------------------------------------------------

  lemma GoodStep(w: World, act: Action)
    requires Good(w)
    ensures Good(Next(w, act))
  {
    hide Next, Inv, Known, Sound, InHand;
    NextOk(w, act);
    KnownStep(w, act);
    SoundStep(w, act);
    InHandStep(w, act);
  }

  lemma {:induction false} GoodRun(w: World, acts: seq<Action>)
    requires Good(w)
    ensures Good(Run(w, acts)) && LaterRows(w.db.rows, Run(w, acts).db.rows) && Run(w, acts).job == w.job
    decreases |acts|
  {
    hide Next, Good, Inv;
    if acts != [] {
      GoodStep(w, acts[0]);
      GoodRun(Next(w, acts[0]), acts[1..]);
      GoodMeans(w);
      NextOk(w, acts[0]);
      JobStays(w, acts[0]);
      LaterTransitive(w.db.rows, Next(w, acts[0]).db.rows, Run(w, acts).db.rows);
    }
  }

  lemma GoodMeans(w: World)
    requires Good(w)
    ensures Inv(w)
  {
  }

  lemma JobStays(w: World, act: Action)
    ensures Next(w, act).job == w.job
  {
  }

  // ---------------------------------------------------------------------------
  // Continuations without a restart
  // ---------------------------------------------------------------------------

  ghost predicate Leads(w: World, v: World) {
    exists acts :: Steady(acts) && Run(w, acts) == v
  }

  lemma LeadsNowhere(w: World)
    ensures Leads(w, w)
  {
    assert Steady([]) && Run(w, []) == w;
  }

  lemma LeadsFirst(w: World, act: Action, v: World)
    requires !act.Restart? && Leads(Next(w, act), v)
    ensures Leads(w, v)
  {
    hide Next;
    var acts :| Steady(acts) && Run(Next(w, act), acts) == v;
    assert ([act] + acts)[1..] == acts;
    assert Steady([act] + acts) && Run(w, [act] + acts) == v;
  }

  lemma LeadsOn(u: World, w: World, v: World)
    requires Leads(u, w) && Leads(w, v)
    ensures Leads(u, v)
  {
    var first :| Steady(first) && Run(u, first) == w;
    var more :| Steady(more) && Run(w, more) == v;
    RunSplit(u, first, more);
    assert Steady(first + more) && Run(u, first + more) == v;
  }

  /** Rollups about to be written are still there, at their places. */
  predicate KeepsRollups(w: World, v: World) {
    && |w.tasks| <= |v.tasks|
    && forall i :: 0 <= i < |w.tasks| && w.tasks[i].WriteParent? ==> v.tasks[i] == w.tasks[i]
  }

  /** The same rows have ended. */
  predicate EndsNone(w: World, v: World) {
    && |v.db.rows| == |w.db.rows|
    && forall q :: 0 <= q < |w.db.rows| ==> v.db.rows[q].Terminal() == w.db.rows[q].Terminal()
  }

  predicate CannotEnd(t: Task) {
    !t.WriteFailed? && !t.WriteSucceeded? && !t.FailRows? && !t.ApplyAgentEvent? && !t.WriteParent? && !t.AttachRelays?
  }

  /** The other queued rows are still queued. */
  predicate KeepsQueued(w: World, v: World, r: nat) {
    && |v.db.rows| == |w.db.rows|
    && forall q :: 0 <= q < |w.db.rows| && q != r && w.db.rows[q].status.Queued? ==> v.db.rows[q].status.Queued?
  }

  /** The task writes to no row but `r`, or puts rows into the queue. */
  predicate WritesOnly(t: Task, r: nat) {
    t.MarkJobRunning? || t.FetchQueued? || t.ResetRows?
    || (!t.Done? && !t.WriteParent? && !t.FailRows? && !t.AttachRelays? && t.row == r)
  }

  lemma StepsQuietly(w: World, i: nat, a: Answer, r: nat)
    requires Good(w) && i < |w.tasks| && CannotEnd(w.tasks[i]) && WritesOnly(w.tasks[i], r)
    ensures InRange(w.tasks[i], |w.db.rows|)
    ensures var e := Execute(w.job, w.now, w.db, w.tasks[i], Told(w, w.tasks[i], a));
            var v := Next(w, Step(i, a));
            && Good(v) && v.db == e.db && v.job == w.job && v.now == w.now
            && v.tasks == w.tasks[i := e.next] + e.spawned
            && EndsNone(w, v) && KeepsRollups(w, v) && KeepsQueued(w, v, r)
  {
    hide Execute, DbOk, Known, Sound, InHand, Recorded, Noticed, Told, Tracked, Overwritten;
    var t := w.tasks[i];
    assert TaskOk(t, w.db.rows);
    GoodStep(w, Step(i, a));
    ExecuteTells(w.job, w.now, w.db, t, Told(w, t, a));
    NoEndWritten(w.job, w.now, w.db, t, Told(w, t, a));
    QueuedStay(w.job, w.now, w.db, t, Told(w, t, a), r);
  }

  lemma QueuedStay(job: Job, now: int, db: Db, t: Task, a: Answer, r: nat)
    requires InRange(t, |db.rows|) && WritesOnly(t, r)
    ensures var e := Execute(job, now, db, t, a);
            |e.db.rows| == |db.rows|
            && forall q :: 0 <= q < |db.rows| && q != r && db.rows[q].status.Queued? ==> e.db.rows[q].status.Queued?
  {
    hide ExecutorRollup, RelayRollup, OpenCount;
    if t.ResetRows? && t.rows != [] {
      assert t.rows[0] in t.rows;
    }
  }

  lemma NoEndWritten(job: Job, now: int, db: Db, t: Task, a: Answer)
    requires InRange(t, |db.rows|) && CannotEnd(t)
    ensures var e := Execute(job, now, db, t, a); !e.write.Ended? && !e.write.FailureEnded?
  {
    hide ExecutorRollup, RelayRollup, OpenCount;
  }

  /** What an action that starts something leaves. */
  lemma StartsQuietly(w: World, act: Action)
    requires Good(w) && !act.Step? && !act.Restart?
    ensures var v := Next(w, act);
            && Good(v) && v.db == w.db && v.job == w.job
            && w.tasks <= v.tasks && EndsNone(w, v) && KeepsRollups(w, v) && forall r: nat :: KeepsQueued(w, v, r)
  {
    GoodStep(w, act);
    hide Good;
  }

  // ---------------------------------------------------------------------------
  // Steps of which the whole effect is known
  // ---------------------------------------------------------------------------

  /** The outside world as one would wish it. */
  const FINE := Answer(true, "job", Report(AgentEvent(AgentSucceeded, None, None)), Landed(""), None)

  /** And as one would not. */
  const BAD := Answer(false, "", JobNotFound(""), Fatal(""), None)

  /** A step that only reads, or calls out, and moves on. */
  lemma Moves(w: World, i: nat, a: Answer, next: Task)
    requires i < |w.tasks| && InRange(w.tasks[i], |w.db.rows|)
    requires Execute(w.job, w.now, w.db, w.tasks[i], a) == Goto(w.db, next)
    requires RelayRow(next) == RelayRow(w.tasks[i]) && RollupStart(next).None?
    requires !w.tasks[i].WriteParent? && !w.tasks[i].WriteOutcome? && !w.tasks[i].AttachRelays?
    requires !w.tasks[i].WindowGate? && !w.tasks[i].NotifyHost?
    ensures Next(w, Step(i, a)) == w.(tasks := w.tasks[i := next])
    ensures Leads(w, w.(tasks := w.tasks[i := next]))
  {
    hide Execute;
    var v := w.(tasks := w.tasks[i := next]);
    assert Next(w, Step(i, a)) == v;
    hide Next;
    LeadsNowhere(v);
    LeadsFirst(w, Step(i, a), v);
  }

  lemma LeadsNext(u: World, w: World, act: Action)
    requires Leads(u, w) && !act.Restart?
    ensures Leads(u, Next(w, act))
  {
    hide Next;
    LeadsNowhere(Next(w, act));
    LeadsFirst(w, act, Next(w, act));
    LeadsOn(u, w, Next(w, act));
  }

  predicate OpenAt(w: World, r: nat) {
    r < |w.db.rows| && !w.db.rows[r].Terminal()
  }

  lemma OpenParent(w: World, r: nat)
    requires Good(w) && OpenAt(w, r)
    ensures !w.db.parent.status.Terminal() && 0 <= w.db.rows[r].retryCount <= 3
  {
    assert RowOk(w.db.rows[r]);
  }

  predicate BacksOff(row: HostRow) {
    row.status.Pending? || row.status.WaitingHealthCheck?
  }

  lemma QueuedAt(rows: seq<HostRow>, r: nat) returns (k: nat)
    requires r < |rows| && rows[r].status.Queued?
    ensures k < |QueuedHosts(rows)| && QueuedHosts(rows)[k] == FetchHost(r)
  {
    k :| k < |QueuedHosts(rows)| && QueuedHosts(rows)[k] == FetchHost(r);
  }

  lemma PolledAt(rows: seq<HostRow>, r: nat) returns (k: nat)
    requires r < |rows| && Pollable(rows[r])
    ensures k < |Polls(rows)| && Polls(rows)[k] == PollAgent(r)
  {
    k :| k < |Polls(rows)| && Polls(rows)[k] == PollAgent(r);
  }

  /** A scan of the running rows polls one that the agent has accepted. */
  lemma PollStarts(w: World, r: nat) returns (i: nat)
    requires Good(w) && r < |w.db.rows| && Pollable(w.db.rows[r])
    ensures var w' := Next(w, ScanRunning);
            && Good(w') && w'.db == w.db && w'.job == w.job && w'.now == w.now
            && EndsNone(w, w') && KeepsRollups(w, w') && KeepsQueued(w, w', r)
            && i < |w'.tasks| && w'.tasks[i] == PollAgent(r)
  {
    StartsQuietly(w, ScanRunning);
    var k := PolledAt(w.db.rows, r);
    i := |w.tasks| + k;
    hide Polls, Good;
    assert Next(w, ScanRunning).tasks == w.tasks + Polls(w.db.rows);
  }
}
