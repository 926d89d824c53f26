/**
  Progress of the job protocol: a job whose hosts have all ended gets an ended
  parent, and no unfinished host row can escape every scanner.
*/
module JobProgress {
  import opened Wrappers
  import opened JobRows
  import opened JobRollup
  import opened JobProtocol
  import opened JobSafety

  /** A task that has yet to bring the hosts' common end to the parent. */
  predicate BringsEnd(t: Task) {
    t.CountHosts? || t.CountOpen? || t.CountOutcome? || t.WriteOutcome?
    || (t.WriteParent? && t.rollup.Terminal())
  }

  predicate EndInFlight(w: World) {
    exists i :: 0 <= i < |w.tasks| && BringsEnd(w.tasks[i])
  }

  /** The executor's rollup has an answer for these hosts; it has none for a mix of succeeded and cancelled. */
  predicate HasRollup(rows: seq<HostRow>) {
    ExecutorRollup(Statuses(rows)).Some?
  }

  predicate CompletionOk(w: World) {
    && (w.overwritten ==> AllTerminal(w.db.rows) && !w.db.parent.status.Terminal())
    && (AllTerminal(w.db.rows) && HasRollup(w.db.rows) && !w.overwritten ==>
          w.db.parent.status.Terminal() || EndInFlight(w))
  }

  /** A run in which the worker is not restarted. */
  predicate Steady(acts: seq<Action>) {
    forall act :: act in acts ==> !act.Restart?
  }

  /** A write that ends the parent. */
  predicate WritesEnd(t: Task) {
    t.WriteOutcome? || (t.WriteParent? && t.rollup.Terminal())
  }

  /** What a step owes the parent once all hosts have ended. */
  predicate PassesEnd(db: Db, t: Task, e: Effect) {
    && (db.parent.status.Terminal() && t != WriteParent(Running) ==> e.db.parent.status.Terminal())
    && (WritesEnd(t) ==> e.db.parent.status.Terminal())
    && (!db.parent.status.Terminal() && !WritesEnd(t) ==> !e.db.parent.status.Terminal())
    && (t == WriteParent(Running) ==> !e.db.parent.status.Terminal())
    && (BringsEnd(t) && HasRollup(db.rows) ==> BringsEnd(e.next) || e.db.parent.status.Terminal())
  }

  lemma PollBringsEnd(job: Job, now: int, db: Db, t: Task, a: Answer)
    requires TaskOk(t, db.rows) && AllTerminal(db.rows) && RoleOf(t).Polling?
    ensures PassesEnd(db, t, PollStep(job, now, db, t, a))
  {
    hide ExecutorRollup;
    OpenRows(db.rows);
    ExecutorRollupMeaning(Statuses(db.rows));
  }

  lemma RelayBringsEnd(now: int, db: Db, t: Task, a: Answer)
    requires TaskOk(t, db.rows) && AllTerminal(db.rows) && RoleOf(t).Relaying?
    ensures PassesEnd(db, t, RelayStep(now, db, t, a))
  {
    hide ExecutorRollup, RelayRollup, OpenCount;
    OpenRows(db.rows);
    OpenCountMeaning(Statuses(db.rows));
    RelayRollupMeaning(Statuses(db.rows));
  }

  lemma DispatchLeavesParent(now: int, db: Db, t: Task, a: Answer)
    requires InRange(t, |db.rows|)
    ensures DispatchStep(now, db, t, a).db.parent == db.parent
  {
  }

  /** One task cannot drop the end of the job, unless it writes a stale `running`. */
  lemma ExecuteBringsEnd(job: Job, now: int, db: Db, t: Task, a: Answer)
    requires TaskOk(t, db.rows) && AllTerminal(db.rows)
    ensures PassesEnd(db, t, Execute(job, now, db, t, a))
  {
    hide DispatchStep, PollStep, RelayStep, ExecutorRollup;
    match RoleOf(t)
    case Dispatching => DispatchLeavesParent(now, db, t, a);
    case Polling => PollBringsEnd(job, now, db, t, a);
    case Relaying => RelayBringsEnd(now, db, t, a);
    case _ =>
  }

  lemma LastEndStartsRollup(w: World, i: nat, a: Answer)
    requires Inv(w) && i < |w.tasks|
    requires !AllTerminal(w.db.rows) && AllTerminal(StepTask(w, i, a).db.rows)
    ensures EndInFlight(StepTask(w, i, a))
  {
    hide Execute, Recorded;
    var told := Told(w, w.tasks[i], a);
    var e := Execute(w.job, w.now, w.db, w.tasks[i], told);
    ExecuteTells(w.job, w.now, w.db, w.tasks[i], told);
    var w' := StepTask(w, i, a);
    if RollupStart(e.next).Some? {
      assert BringsEnd(w'.tasks[i]);
    } else {
      assert w'.tasks[|w.tasks|] == e.spawned[0];
      assert BringsEnd(w'.tasks[|w.tasks|]);
    }
  }

  /** The parent cannot end before the hosts do. */
  lemma OpenStep(w: World, i: nat, a: Answer)
    requires Inv(w) && i < |w.tasks| && !AllTerminal(w.db.rows)
    ensures !w.db.parent.status.Terminal()
    ensures !WritesEnd(w.tasks[i])
  {
    assert TaskOk(w.tasks[i], w.db.rows);
  }

  lemma CompletionTask(w: World, i: nat, a: Answer)
    requires Inv(w) && CompletionOk(w) && i < |w.tasks|
    ensures CompletionOk(StepTask(w, i, a))
  {
    hide Execute, Recorded, ExecutorRollup;
    var w' := StepTask(w, i, a);
    StepTaskOk(w, i, a);
    if AllTerminal(w.db.rows) {
      LaterKeepsEnd(w.db.rows, w'.db.rows);
      ExecuteBringsEnd(w.job, w.now, w.db, w.tasks[i], Told(w, w.tasks[i], a));
      if HasRollup(w'.db.rows) && !w'.overwritten && !w.db.parent.status.Terminal() && !w.overwritten {
        var j :| 0 <= j < |w.tasks| && BringsEnd(w.tasks[j]);
        assert BringsEnd(w'.tasks[j]) || w'.db.parent.status.Terminal();
      }
    } else {
      OpenStep(w, i, a);
      if AllTerminal(w'.db.rows) {
        LastEndStartsRollup(w, i, a);
      }
    }
  }

  lemma CompletionStep(w: World, act: Action)
    requires Inv(w) && CompletionOk(w) && !act.Restart?
    ensures CompletionOk(Next(w, act))
  {
    hide StepTask, ExecutorRollup;
    if act.Step? && act.task < |w.tasks| {
      CompletionTask(w, act.task, act.answer);
    } else if EndInFlight(w) {
      var j :| 0 <= j < |w.tasks| && BringsEnd(w.tasks[j]);
      assert BringsEnd(Next(w, act).tasks[j]);
    }
  }

  lemma {:induction false} CompletionRun(w: World, acts: seq<Action>)
    requires Inv(w) && CompletionOk(w) && Steady(acts)
    ensures CompletionOk(Run(w, acts))
    decreases |acts|
  {
    if acts != [] {
      NextOk(w, acts[0]);
      CompletionStep(w, acts[0]);
      CompletionRun(Next(w, acts[0]), acts[1..]);
    }
  }

  /**
    When every host has ended and no rollup is in flight any more, the parent has
    ended too, exactly unless a stale rollup to `running` was written last. Hosts
    that are a mix of succeeded and cancelled ones are apart: for them the executor
    writes nothing.
  */
  lemma FinishedJobsEnd(job: Job, n: nat, now: int, acts: seq<Action>)
    requires n > 0 && Steady(acts)
    ensures var w := Run(Initial(job, n, now), acts);
            var statuses := Statuses(w.db.rows);
            && AllTerminal(w.db.rows) && !EndInFlight(w)
            && (Failed in statuses || Succeeded !in statuses || Cancelled !in statuses)
            ==> (w.db.parent.status.Terminal() <==> !w.overwritten)
  {
    hide ExecutorRollup;
    var w0 := Initial(job, n, now);
    InitialOk(job, n, now);
    assert !w0.db.rows[0].Terminal();
    CompletionRun(w0, acts);
    RunOk(w0, acts);
    var w := Run(w0, acts);
    OpenRows(w.db.rows);
    ExecutorRollupMeaning(Statuses(w.db.rows));
  }

  // ---------------------------------------------------------------------------
  // Jobs of one host
  // ---------------------------------------------------------------------------

  /** With one host nothing counts before the end, so nothing rolls up `running`. */
  predicate SingleOk(w: World) {
    && |w.db.rows| == 1
    && (forall i :: 0 <= i < |w.tasks| ==>
          (w.tasks[i].CountHosts? ==> AllTerminal(w.db.rows)) && w.tasks[i] != WriteParent(Running))
    && (AllTerminal(w.db.rows) ==> w.db.parent.status.Terminal() || EndInFlight(w))
  }

  lemma SingleRollup(rows: seq<HostRow>)
    requires |rows| == 1 && AllTerminal(rows)
    ensures HasRollup(rows) && ExecutorRollup(Statuses(rows)) != Some(Running)
  {
    hide ExecutorRollup;
    OpenRows(rows);
    ExecutorRollupMeaning(Statuses(rows));
    assert rows[0].Terminal() && Statuses(rows)[0] == rows[0].status;
  }

  /** What a step puts in flight counts only ended hosts, and rolls up only ends. */
  lemma SingleEffect(job: Job, now: int, db: Db, t: Task, a: Answer)
    requires TaskOk(t, db.rows) && |db.rows| == 1
    requires t.CountHosts? ==> AllTerminal(db.rows)
    requires t != WriteParent(Running)
    ensures var e := Execute(job, now, db, t, a);
            && e.next != WriteParent(Running)
            && forall k :: 0 <= k < |e.spawned| ==> !e.spawned[k].WriteParent?
  {
    hide ExecutorRollup, RelayRollup, OpenCount;
    if t.CountHosts? {
      SingleRollup(db.rows);
    }
  }

  lemma SingleTask(w: World, i: nat, a: Answer)
    requires Inv(w) && SingleOk(w) && i < |w.tasks|
    ensures SingleOk(StepTask(w, i, a))
  {
    hide Execute, Recorded, ExecutorRollup;
    var t := w.tasks[i];
    var told := Told(w, t, a);
    var e := Execute(w.job, w.now, w.db, t, told);
    var w' := StepTask(w, i, a);
    assert TaskOk(t, w.db.rows);
    StepTaskOk(w, i, a);
    SingleEffect(w.job, w.now, w.db, t, told);
    ExecuteTells(w.job, w.now, w.db, t, told);
    forall j | 0 <= j < |w'.tasks|
      ensures (w'.tasks[j].CountHosts? ==> AllTerminal(e.db.rows)) && w'.tasks[j] != WriteParent(Running)
    {
      SingleInFlight(w, e, i, j);
    }
    if AllTerminal(w.db.rows) {
      SingleRollup(w.db.rows);
      ExecuteBringsEnd(w.job, w.now, w.db, t, told);
      if !w.db.parent.status.Terminal() {
        var j :| 0 <= j < |w.tasks| && BringsEnd(w.tasks[j]);
        assert BringsEnd(w'.tasks[j]) || w'.db.parent.status.Terminal();
      }
    } else if AllTerminal(w'.db.rows) {
      LastEndStartsRollup(w, i, a);
    }
  }

  lemma SingleInFlight(w: World, e: Effect, i: nat, j: nat)
    requires SingleOk(w) && i < |w.tasks| && LaterRows(w.db.rows, e.db.rows) && WriteTold(w.db, e)
    requires e.next != WriteParent(Running) && forall k :: 0 <= k < |e.spawned| ==> !e.spawned[k].WriteParent?
    requires j < |w.tasks| + |e.spawned|
    ensures var t := (w.tasks[i := e.next] + e.spawned)[j];
            (t.CountHosts? ==> AllTerminal(e.db.rows)) && t != WriteParent(Running)
  {
    if AllTerminal(w.db.rows) {
      LaterKeepsEnd(w.db.rows, e.db.rows);
    }
    var t := (w.tasks[i := e.next] + e.spawned)[j];
    if t.CountHosts? && (j == i || j >= |w.tasks|) {
      assert RollupStart(t).Some?;
      assert e.db.rows[0].Terminal();
    }
  }

  lemma SingleStep(w: World, act: Action)
    requires Inv(w) && SingleOk(w) && !act.Restart?
    ensures SingleOk(Next(w, act))
  {
    hide StepTask, ExecutorRollup, Inv, Polls, Accepted, DueForRetry, DueForTimeout;
    if act.Step? && act.task < |w.tasks| {
      SingleTask(w, act.task, act.answer);
    } else if EndInFlight(w) {
      var j :| 0 <= j < |w.tasks| && BringsEnd(w.tasks[j]);
      assert BringsEnd(Next(w, act).tasks[j]);
    }
  }

  lemma {:induction false} SingleRun(w: World, acts: seq<Action>)
    requires Inv(w) && SingleOk(w) && Steady(acts)
    ensures SingleOk(Run(w, acts))
    decreases |acts|
  {
    hide SingleOk;
    if acts != [] {
      NextOk(w, acts[0]);
      SingleStep(w, acts[0]);
      SingleRun(Next(w, acts[0]), acts[1..]);
    }
  }

  /** A finished job of one host always has an ended parent. */
  lemma SingleHostJobsEnd(job: Job, now: int, acts: seq<Action>)
    requires Steady(acts)
    ensures var w := Run(Initial(job, 1, now), acts);
            AllTerminal(w.db.rows) && !EndInFlight(w) ==> w.db.parent.status.Terminal()
  {
    InitialOk(job, 1, now);
    assert !Initial(job, 1, now).db.rows[0].Terminal();
    SingleRun(Initial(job, 1, now), acts);
  }

  // ---------------------------------------------------------------------------
  // No row is stranded
  // ---------------------------------------------------------------------------

  /**
    Whatever has happened, an unfinished row waits for a scanner that will find
    it: a queued row for the queue scan, a row backing off for the retry scan once
    its time has come, a running row for the poller once the agent has accepted it,
    and for the timeout scan, if there is one, once it is overdue. `JobLiveness`
    tells what becomes of a running row that neither of the last two finds.
  */
  lemma NoRowIsStranded(job: Job, n: nat, now: int, acts: seq<Action>, r: nat, wait: nat)
    requires r < n
    ensures var w := Run(Initial(job, n, now), acts);
            var later := Next(w, Tick(wait));
            && |w.db.rows| == n && later.db == w.db && w.job == job
            && var row := w.db.rows[r];
               match row.status
               case Queued =>
                 job.immediate || job.open(r, later.now) ==>
                   QueuedDue(job, later.now, later.db.parent, job.open(r, later.now), row) && CanDispatch(later)
               case Pending | WaitingHealthCheck =>
                 row.retryNextAt.Some? && (row.retryNextAt.value <= later.now ==> r in DueForRetry(later.now, later.db))
               case Running =>
                 row.startedAt.Some?
                 && (row.agentJobId.Some? ==> PollAgent(r) in Polls(later.db.rows))
                 && (!job.kind.SelfUpgrade? && job.timeoutSecs != 0 ==>
                       row.startedAt.value + job.timeoutSecs < later.now ==> r in DueForTimeout(job, later.now, later.db))
               case _ => true
  {
    InitialOk(job, n, now);
    RunOk(Initial(job, n, now), acts);
    RunKeepsJob(Initial(job, n, now), acts);
  }

  lemma {:induction false} RunKeepsJob(w: World, acts: seq<Action>)
    ensures Run(w, acts).job == w.job
    decreases |acts|
  {
    if acts != [] {
      RunKeepsJob(Next(w, acts[0]), acts[1..]);
    }
  }
}
