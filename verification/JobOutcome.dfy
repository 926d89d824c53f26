/**
  When the parent of a job can still end, and when it is sure to: exact answers for
  every reachable state, and for every job by its number of hosts.
*/
module JobOutcome {
  import opened Wrappers
  import opened JobRows
  import opened JobRollup
  import opened JobProtocol
  import opened JobSafety
  import opened JobProgress
  import opened JobHands
  import opened JobWindows
  import opened JobLiveness

  predicate ParentEnded(w: World) {
    w.db.parent.status.Terminal()
  }

  ghost predicate ParentCanEnd(w: World) {
    exists acts :: ParentEnded(Run(w, acts))
  }

  lemma LeadsToEnd(w: World, v: World)
    requires Leads(w, v) && ParentEnded(v)
    ensures ParentCanEnd(w)
  {
    var acts :| Steady(acts) && Run(w, acts) == v;
  }

  // ---------------------------------------------------------------------------
  // All hosts have ended
  // ---------------------------------------------------------------------------

  /** The task will end the parent of these ended hosts. */
  predicate Delivers(t: Task, rows: seq<HostRow>) {
    WritesEnd(t) || t.CountOpen? || t.CountOutcome? || (t.CountHosts? && HasRollup(rows))
  }

  predicate Delivered(w: World) {
    exists i :: 0 <= i < |w.tasks| && Delivers(w.tasks[i], w.db.rows)
  }

  /** What a step that does not deliver leaves. */
  predicate LeavesOpen(db: Db, e: Effect) {
    && !e.db.parent.status.Terminal() && !Delivers(e.next, db.rows)
    && forall k :: 0 <= k < |e.spawned| ==> !Delivers(e.spawned[k], db.rows)
  }

  lemma PollLeavesOpen(job: Job, now: int, db: Db, t: Task, a: Answer)
    requires TaskOk(t, db.rows) && AllTerminal(db.rows) && !db.parent.status.Terminal() && !Delivers(t, db.rows)
    requires RoleOf(t).Polling?
    ensures LeavesOpen(db, PollStep(job, now, db, t, a))
  {
    hide ExecutorRollup;
  }

  lemma RelayLeavesOpen(now: int, db: Db, t: Task, a: Answer)
    requires TaskOk(t, db.rows) && AllTerminal(db.rows) && !db.parent.status.Terminal() && !Delivers(t, db.rows)
    requires RoleOf(t).Relaying?
    ensures LeavesOpen(db, RelayStep(now, db, t, a))
  {
    hide ExecutorRollup, RelayRollup, OpenCount, HasRollup;
  }

  lemma DispatchLeavesOpen(now: int, db: Db, t: Task, a: Answer)
    requires TaskOk(t, db.rows) && !db.parent.status.Terminal() && RoleOf(t).Dispatching?
    ensures LeavesOpen(db, DispatchStep(now, db, t, a))
  {
    hide HasRollup;
  }

  lemma ScanLeavesOpen(now: int, db: Db, t: Task, a: Answer)
    requires TaskOk(t, db.rows) && AllTerminal(db.rows) && !db.parent.status.Terminal() && RoleOf(t).Scanning?
    ensures LeavesOpen(db, ScanStep(now, db, t, a))
  {
    hide HasRollup;
    if t.rows != [] {
      assert t.rows[0] in t.rows;
    }
  }

  lemma ExecuteLeavesOpen(job: Job, now: int, db: Db, t: Task, a: Answer)
    requires TaskOk(t, db.rows) && AllTerminal(db.rows) && !db.parent.status.Terminal() && !Delivers(t, db.rows)
    ensures LeavesOpen(db, Execute(job, now, db, t, a))
  {
    hide PollStep, RelayStep, DispatchStep, ScanStep, HasRollup;
    match RoleOf(t)
    case Dispatching => DispatchLeavesOpen(now, db, t, a);
    case Scanning => ScanLeavesOpen(now, db, t, a);
    case Polling => PollLeavesOpen(job, now, db, t, a);
    case Relaying => RelayLeavesOpen(now, db, t, a);
    case _ =>
  }

  predicate Undelivered(w: World) {
    AllTerminal(w.db.rows) && !ParentEnded(w) && !Delivered(w)
  }

  lemma UndeliveredTask(w: World, i: nat, a: Answer)
    requires Inv(w) && Undelivered(w) && i < |w.tasks|
    ensures Undelivered(StepTask(w, i, a))
  {
    hide Execute, Recorded, Noticed, Tracked, Overwritten, DbOk, ExecutorRollup, Told;
    var told := Told(w, w.tasks[i], a);
    var e := Execute(w.job, w.now, w.db, w.tasks[i], told);
    var w' := StepTask(w, i, a);
    assert TaskOk(w.tasks[i], w.db.rows) && !Delivers(w.tasks[i], w.db.rows);
    ExecuteLeavesOpen(w.job, w.now, w.db, w.tasks[i], told);
    StepTaskOk(w, i, a);
    LaterKeepsEnd(w.db.rows, w'.db.rows);
    forall j | 0 <= j < |w'.tasks| ensures !Delivers(w'.tasks[j], w'.db.rows) {
      assert j < |w.tasks| ==> !Delivers(w.tasks[j], w.db.rows);
    }
  }

  lemma UndeliveredStep(w: World, act: Action)
    requires Inv(w) && Undelivered(w)
    ensures Undelivered(Next(w, act))
  {
    hide StepTask, HasRollup, Inv;
    if act.Step? {
      if act.task < |w.tasks| {
        UndeliveredTask(w, act.task, act.answer);
      }
    } else {
      var w' := Next(w, act);
      forall j | 0 <= j < |w'.tasks| ensures !Delivers(w'.tasks[j], w'.db.rows) {
        assert j < |w.tasks| ==> !Delivers(w.tasks[j], w.db.rows);
      }
    }
  }

  lemma {:induction false} UndeliveredRun(w: World, acts: seq<Action>)
    requires Inv(w) && Undelivered(w)
    ensures Undelivered(Run(w, acts))
    decreases |acts|
  {
    hide Next, Inv, Undelivered;
    if acts != [] {
      NextOk(w, acts[0]);
      UndeliveredStep(w, acts[0]);
      UndeliveredRun(Next(w, acts[0]), acts[1..]);
    }
  }

  /** A task that delivers is brought to its write. */
  lemma DeliverEnds(w: World, i: nat) returns (v: World)
    requires Good(w) && AllTerminal(w.db.rows) && i < |w.tasks| && Delivers(w.tasks[i], w.db.rows)
    ensures Leads(w, v) && ParentEnded(v)
  {
    assert TaskOk(w.tasks[i], w.db.rows);
    hide Good, Next, Leads, ExecutorRollup, RelayRollup, HasRollup, AllTerminal;
    match w.tasks[i]
    case CountHosts(_) => v := CountDelivers(w, i);
    case CountOpen(_, _) => v := OpenDelivers(w, i);
    case CountOutcome(_, _) => v := OutcomeWritten(w, i);
    case _ => v := EndWritten(w, i);
  }

  lemma CountDelivers(w: World, i: nat) returns (v: World)
    requires AllTerminal(w.db.rows) && HasRollup(w.db.rows)
    requires i < |w.tasks| && w.tasks[i].CountHosts? && w.tasks[i].row < |w.db.rows|
    ensures Leads(w, v) && ParentEnded(v)
  {
    OpenRows(w.db.rows);
    ExecutorRollupMeaning(Statuses(w.db.rows));
    hide Next, ExecutorRollup, Leads;
    var rollup := ExecutorRollup(Statuses(w.db.rows)).value;
    Moves(w, i, FINE, WriteParent(rollup));
    var w' := w.(tasks := w.tasks[i := WriteParent(rollup)]);
    v := EndWritten(w', i);
    LeadsOn(w, w', v);
  }

  lemma OpenDelivers(w: World, i: nat) returns (v: World)
    requires AllTerminal(w.db.rows) && i < |w.tasks| && w.tasks[i].CountOpen? && w.tasks[i].row < |w.db.rows|
    ensures Leads(w, v) && ParentEnded(v)
  {
    OpenRows(w.db.rows);
    OpenCountMeaning(Statuses(w.db.rows));
    hide Next, OpenCount, Leads;
    var next := CountOutcome(w.tasks[i].row, w.tasks[i].event);
    Moves(w, i, FINE, next);
    var w' := w.(tasks := w.tasks[i := next]);
    v := OutcomeWritten(w', i);
    LeadsOn(w, w', v);
  }

  lemma OutcomeWritten(w: World, i: nat) returns (v: World)
    requires i < |w.tasks| && w.tasks[i].CountOutcome? && w.tasks[i].row < |w.db.rows|
    ensures Leads(w, v) && ParentEnded(v)
  {
    hide Next, RelayRollup;
    var next := WriteOutcome(w.tasks[i].row, w.tasks[i].event, RelayRollup(Statuses(w.db.rows)));
    Moves(w, i, FINE, next);
    var w' := w.(tasks := w.tasks[i := next]);
    RelayRollupMeaning(Statuses(w.db.rows));
    v := EndWritten(w', i);
    LeadsOn(w, w', v);
  }

  lemma EndWritten(w: World, i: nat) returns (v: World)
    requires i < |w.tasks| && InRange(w.tasks[i], |w.db.rows|) && WritesEnd(w.tasks[i])
    requires w.tasks[i].WriteOutcome? ==> w.tasks[i].outcome.Terminal()
    ensures Leads(w, v) && ParentEnded(v)
  {
    v := Next(w, Step(i, FINE));
    assert ParentEnded(v);
    hide Next;
    LeadsNowhere(v);
    LeadsFirst(w, Step(i, FINE), v);
  }

  /** With all hosts ended the parent can end exactly if it has, or an end is on its way. */
  lemma FinishedParentCanEnd(w: World)
    requires Good(w) && AllTerminal(w.db.rows)
    ensures ParentCanEnd(w) <==> ParentEnded(w) || Delivered(w)
  {
    if ParentEnded(w) {
      assert ParentEnded(Run(w, []));
    } else if Delivered(w) {
      var i :| 0 <= i < |w.tasks| && Delivers(w.tasks[i], w.db.rows);
      var v := DeliverEnds(w, i);
      LeadsToEnd(w, v);
    } else {
      forall acts ensures !ParentEnded(Run(w, acts)) {
        UndeliveredRun(w, acts);
      }
    }
  }

  // ---------------------------------------------------------------------------
  // Some host is open
  // ---------------------------------------------------------------------------

  ghost predicate AllFree(w: World) {
    forall r :: 0 <= r < |w.db.rows| ==> !Stuck(w, r)
  }

  /** Every queued row is carried on, and none is stuck running; so it stays without a restart. */
  ghost predicate Ready(w: World) {
    Good(w) && Launched(w) && forall r :: 0 <= r < |w.db.rows| ==> !StuckRunning(w, r)
  }

  predicate EndedUpTo(rows: seq<HostRow>, k: nat, skip: int) {
    forall r :: 0 <= r < |rows| && r < k && r != skip ==> rows[r].Terminal()
  }

  /** If all hosts have ended, one has failed, its rollup is to come, and the parent has not ended. */
  ghost predicate EndsInFailure(v: World) {
    AllTerminal(v.db.rows) ==> exists r: nat :: HasFailed(v, r)
  }

  /** What a continuation that lets hosts fail one after the other keeps; `skip` is left in the queue. */
  ghost predicate Continues(w: World, v: World, skip: int) {
    && Leads(w, v) && v.job == w.job && KeepsRollups(w, v) && |v.db.rows| == |w.db.rows|
    && LaterRows(w.db.rows, v.db.rows)
    && (0 <= skip < |w.db.rows| && w.db.rows[skip].status.Queued? ==> v.db.rows[skip].status.Queued?)
  }

  lemma ReadyOn(w: World, v: World)
    requires Good(w) && Leads(w, v) && forall r :: 0 <= r < |w.db.rows| ==> !StuckRunning(w, r)
    ensures Good(v) && LaterRows(w.db.rows, v.db.rows) && v.job == w.job
    ensures Launched(w) || Launched(v) ==> Ready(v)
  {
    hide Good, StuckRunning, Launched;
    var acts :| Steady(acts) && Run(w, acts) == v;
    GoodRun(w, acts);
    if Launched(w) {
      LaunchedRun(w, acts);
    }
    forall q | 0 <= q < |v.db.rows| ensures !StuckRunning(v, q) {
      FreeRun(w, acts, q);
    }
  }

  lemma FailsNext(w: World, r: nat, skip: int) returns (v: World)
    requires Ready(w) && OpenAt(w, r) && r != skip
    ensures Continues(w, v, skip) && Ready(v) && HasFailed(v, r)
  {
    hide Good, StuckRunning;
    v := FailsOpen(w, r);
    ReadyOn(w, v);
  }

  lemma {:induction false} FailsUpTo(w: World, k: nat, skip: int) returns (v: World)
    requires Ready(w) && k <= |w.db.rows| && EndsInFailure(w)
    ensures Continues(w, v, skip) && Ready(v) && EndedUpTo(v.db.rows, k, skip) && EndsInFailure(v)
    decreases k
  {
    hide Ready, HasFailed, Leads;
    if k == 0 {
      v := w;
      LeadsNowhere(w);
    } else {
      var u := FailsUpTo(w, k - 1, skip);
      if u.db.rows[k - 1].Terminal() || k - 1 == skip {
        v := u;
      } else {
        v := FailsNext(u, k - 1, skip);
        assert v.db.rows[k - 1].Terminal() by { FailedIsTerminal(v, k - 1); }
        LeadsOn(w, u, v);
        LaterTransitive(w.db.rows, u.db.rows, v.db.rows);
        EndsStay(u.db.rows, v.db.rows, k, skip);
        KeptOn(w, u, v);
      }
    }
  }

  lemma FailedIsTerminal(v: World, r: nat)
    requires HasFailed(v, r)
    ensures r < |v.db.rows| && v.db.rows[r].Terminal()
  {
  }

  lemma KeptOn(w: World, u: World, v: World)
    requires KeepsRollups(w, u) && KeepsRollups(u, v)
    ensures KeepsRollups(w, v)
  {
  }

  lemma EndsStay(before: seq<HostRow>, after: seq<HostRow>, k: nat, skip: int)
    requires LaterRows(before, after) && 0 < k <= |after|
    requires EndedUpTo(before, k - 1, skip) && after[k - 1].Terminal()
    ensures EndedUpTo(after, k, skip)
  {
    forall r | 0 <= r < |after| && r < k && r != skip ensures after[r].Terminal() {
      if r < k - 1 {
        assert Later(before[r], after[r]) && before[r].Terminal();
      }
    }
  }

  /** The job is dispatched, if some queued host is in nobody's hands. */
  lemma GetsReady(w: World) returns (v: World)
    requires Good(w) && AllFree(w) && !AllTerminal(w.db.rows)
    ensures Leads(w, v) && KeepsRollups(w, v) && Ready(v) && v.job == w.job && !AllTerminal(v.db.rows)
    ensures |v.db.rows| == |w.db.rows|
  {
    forall r: nat | r < |w.db.rows| ensures !StuckRunning(w, r) && !StuckQueued(w, r) {
      assert !Stuck(w, r);
    }
    if Launched(w) {
      v := w;
      LeadsNowhere(w);
    } else {
      var r :| 0 <= r < |w.db.rows| && w.db.rows[r].status.Queued? && !Carried(w, r);
      assert Untouched(w, r) && !StuckQueued(w, r);
      hide Good, StuckRunning, StuckQueued, Launched;
      v := LaunchesFree(w, r);
      ReadyOn(w, v);
    }
  }

  /** Every host fails or has ended, and the last failure is still to be rolled up. */
  lemma AllFail(w: World) returns (v: World)
    requires Good(w) && AllFree(w) && !AllTerminal(w.db.rows)
    ensures Leads(w, v) && Good(v) && KeepsRollups(w, v) && AllTerminal(v.db.rows) && |v.db.rows| == |w.db.rows|
    ensures exists r: nat :: HasFailed(v, r)
  {
    hide AllFree, HasFailed, Launched;
    var u := GetsReady(w);
    v := FailsUpTo(u, |u.db.rows|, -1);
    assert AllTerminal(v.db.rows);
    LeadsOn(w, u, v);
    KeptOn(w, u, v);
  }

  /** A failure about to be counted delivers. */
  lemma FailureDelivers(v: World, r: nat)
    requires AllTerminal(v.db.rows) && HasFailed(v, r)
    ensures Delivered(v)
  {
    hide ExecutorRollup;
    OpenRows(v.db.rows);
    ExecutorRollupMeaning(Statuses(v.db.rows));
    assert Statuses(v.db.rows)[r] == Failed && Failed in Statuses(v.db.rows);
    var i :| 0 <= i < |v.tasks| && v.tasks[i] == CountHosts(r);
    assert Delivers(v.tasks[i], v.db.rows);
  }

  /** With an open host the parent can end exactly if no host is stuck. */
  lemma OpenParentCanEnd(w: World)
    requires Good(w) && !AllTerminal(w.db.rows)
    ensures ParentCanEnd(w) <==> AllFree(w)
  {
    if AllFree(w) {
      var v := AllFail(w);
      var r: nat :| HasFailed(v, r);
      FailureDelivers(v, r);
      var i :| 0 <= i < |v.tasks| && Delivers(v.tasks[i], v.db.rows);
      hide Good, Delivers;
      var x := DeliverEnds(v, i);
      LeadsOn(w, v, x);
      LeadsToEnd(w, x);
    } else {
      var r :| 0 <= r < |w.db.rows| && Stuck(w, r);
      forall acts ensures !ParentEnded(Run(w, acts)) {
        StuckRun(w, acts, r);
        GoodRun(w, acts);
        StuckKeepsParent(Run(w, acts), r);
      }
    }
  }

  lemma StuckKeepsParent(w: World, r: nat)
    requires Good(w) && Stuck(w, r)
    ensures !ParentEnded(w)
  {
    StuckInRange(w, r);
  }

  /**
    For every reachable state, restarts included: the parent can still end exactly
    if no host is stuck, as long as one is open; and once all have ended, exactly if
    the parent has too, or a rollup that will end it is in flight.
  */
  lemma EveryParentCanEnd(job: Job, n: nat, now: int, acts: seq<Action>)
    requires n > 0
    ensures var w := Run(Initial(job, n, now), acts);
            ParentCanEnd(w) <==>
              if AllTerminal(w.db.rows) then ParentEnded(w) || Delivered(w) else AllFree(w)
  {
    hide Good, ParentCanEnd, Delivered, AllFree;
    InitialGood(job, n, now);
    GoodRun(Initial(job, n, now), acts);
    var w := Run(Initial(job, n, now), acts);
    if AllTerminal(w.db.rows) {
      FinishedParentCanEnd(w);
    } else {
      OpenParentCanEnd(w);
    }
  }

  // ---------------------------------------------------------------------------
  // Letting all tasks finish
  // ---------------------------------------------------------------------------

  /** A bound on the work a task still causes once all hosts have ended. */
  function Rank(t: Task): nat {
    match t
    case Done => 0
    case FetchHost(_) => 6
    case HealthGate(_) => 5
    case FetchJob(_) => 4
    case WriteRunning(_) => 3
    case MarkJobRunning | CallAgent(_) | WindowGate(_) => 2
    case CountHosts(_) | PollAgent(_) => 2
    case ConfirmUpgrade(_, _) => 2
    case ResetRows(rs) => 1 + |rs|
    case FailRows(rs) => 1 + |rs|
    case AttachRelays(rs) => 1 + 2 * |rs|
    case CountOpen(_, _) => 5
    case CountOutcome(_, _) => 4
    case WriteOutcome(_, _, _) => 3
    case NotifyHost(_, _) | ApplyAgentEvent(_, _, _) => 2
    case _ => 1
  }

  /** The work of the tasks, leaving one out. */
  function Work(tasks: seq<Task>, keep: int): nat {
    if tasks == [] then 0
    else
      var n := |tasks| - 1;
      Work(tasks[..n], keep) + if n == keep then 0 else Rank(tasks[n])
  }

  predicate Finished(tasks: seq<Task>, keep: int) {
    forall i :: 0 <= i < |tasks| && i != keep ==> tasks[i].Done?
  }

  predicate Quiescent(w: World) {
    Finished(w.tasks, -1)
  }

  lemma {:induction false} NoWork(tasks: seq<Task>, keep: int)
    ensures Work(tasks, keep) == 0 ==> Finished(tasks, keep)
    decreases |tasks|
  {
    if tasks != [] {
      NoWork(tasks[..|tasks| - 1], keep);
    }
  }

  lemma {:induction false} WorkStep(tasks: seq<Task>, keep: int, i: nat, next: Task)
    requires i < |tasks| && i != keep
    ensures Work(tasks[i := next], keep) + Rank(tasks[i]) == Work(tasks, keep) + Rank(next)
    decreases |tasks|
  {
    hide Rank;
    var n := |tasks| - 1;
    if i < n {
      assert tasks[i := next][..n] == tasks[..n][i := next];
      WorkStep(tasks[..n], keep, i, next);
    } else {
      assert tasks[i := next][..n] == tasks[..n];
    }
  }

  lemma WorkMore(tasks: seq<Task>, keep: int, t: Task)
    requires keep < |tasks|
    ensures Work(tasks + [t], keep) == Work(tasks, keep) + Rank(t)
  {
    assert (tasks + [t])[..|tasks|] == tasks;
  }

  /** A step of a task brings its end nearer, all hosts having ended. */
  predicate Nearer(t: Task, e: Effect) {
    if e.spawned == [] then Rank(e.next) < Rank(t)
    else |e.spawned| == 1 && Rank(e.next) + Rank(e.spawned[0]) < Rank(t)
  }

  lemma DispatchNears(now: int, db: Db, t: Task, a: Answer)
    requires TaskOk(t, db.rows) && RoleOf(t).Dispatching? && (t.WindowGate? || a == FINE)
    ensures Nearer(t, DispatchStep(now, db, t, a))
  {
  }

  lemma PollNears(job: Job, now: int, db: Db, t: Task)
    requires TaskOk(t, db.rows) && AllTerminal(db.rows) && RoleOf(t).Polling?
    ensures Nearer(t, PollStep(job, now, db, t, FINE))
  {
    hide ExecutorRollup;
  }

  lemma RelayNears(now: int, db: Db, t: Task, a: Answer)
    requires TaskOk(t, db.rows) && AllTerminal(db.rows) && RoleOf(t).Relaying? && a.event.None?
    ensures Nearer(t, RelayStep(now, db, t, a))
  {
    hide RelayRollup, OpenCount;
  }

  lemma QueuedAreOpen(rows: seq<HostRow>)
    ensures QueuedHosts(rows) != [] ==> !AllTerminal(rows)
  {
    var hosts := QueuedHosts(rows);
    if hosts != [] {
      assert !rows[hosts[0].row].Terminal();
    }
  }

  lemma OthersNear(job: Job, now: int, db: Db, t: Task, a: Answer)
    requires TaskOk(t, db.rows) && AllTerminal(db.rows) && !t.Done?
    requires !RoleOf(t).Polling? && !RoleOf(t).Relaying? && !RoleOf(t).Dispatching?
    ensures Nearer(t, Execute(job, now, db, t, a))
  {
    if (t.FailRows? || t.ResetRows?) && t.rows != [] {
      assert t.rows[0] in t.rows;
    } else if t.FetchQueued? {
      QueuedAreOpen(db.rows);
    }
  }

  lemma ExecuteNears(w: World, t: Task)
    requires TaskOk(t, w.db.rows) && AllTerminal(w.db.rows) && !t.Done?
    ensures Nearer(t, Execute(w.job, w.now, w.db, t, Told(w, t, FINE)))
  {
    hide DispatchStep, PollStep, RelayStep, Nearer, AllTerminal, TaskOk;
    var told := Told(w, t, FINE);
    match RoleOf(t)
    case Dispatching => DispatchNears(w.now, w.db, t, told);
    case Polling => PollNears(w.job, w.now, w.db, t);
    case Relaying => RelayNears(w.now, w.db, t, told);
    case _ => OthersNear(w.job, w.now, w.db, t, FINE);
  }

  lemma StepNears(w: World, keep: int, i: nat)
    requires Inv(w) && AllTerminal(w.db.rows) && i < |w.tasks| && i != keep < |w.tasks| && !w.tasks[i].Done?
    ensures var v := Next(w, Step(i, FINE));
            && |w.tasks| <= |v.tasks| && Work(v.tasks, keep) < Work(w.tasks, keep)
            && (keep >= 0 ==> v.tasks[keep] == w.tasks[keep])
  {
    hide Execute, Recorded, Noticed, Tracked, Overwritten, DbOk, Rank, Work, Told;
    assert TaskOk(w.tasks[i], w.db.rows);
    var e := Execute(w.job, w.now, w.db, w.tasks[i], Told(w, w.tasks[i], FINE));
    ExecuteNears(w, w.tasks[i]);
    WorkStep(w.tasks, keep, i, e.next);
    var tasks := w.tasks[i := e.next];
    if e.spawned == [] {
      assert tasks + e.spawned == tasks;
    } else {
      assert e.spawned == [e.spawned[0]];
      WorkMore(tasks, keep, e.spawned[0]);
    }
  }

  /** All tasks but one finish. */
  lemma {:induction false} Finishes(w: World, keep: int) returns (v: World)
    requires Inv(w) && AllTerminal(w.db.rows) && keep < |w.tasks|
    ensures Leads(w, v) && Inv(v) && AllTerminal(v.db.rows) && Statuses(v.db.rows) == Statuses(w.db.rows)
    ensures |w.tasks| <= |v.tasks| && Finished(v.tasks, keep) && (keep >= 0 ==> v.tasks[keep] == w.tasks[keep])
    decreases Work(w.tasks, keep)
  {
    hide Inv, Next, Work, Leads;
    if Finished(w.tasks, keep) {
      v := w;
      LeadsNowhere(w);
    } else {
      var i :| 0 <= i < |w.tasks| && i != keep && !w.tasks[i].Done?;
      StepNears(w, keep, i);
      NextOk(w, Step(i, FINE));
      LaterKeepsEnd(w.db.rows, Next(w, Step(i, FINE)).db.rows);
      v := Finishes(Next(w, Step(i, FINE)), keep);
      LeadsFirst(w, Step(i, FINE), v);
    }
  }

  // ---------------------------------------------------------------------------
  // Which jobs are sure to have an ended parent
  // ---------------------------------------------------------------------------

  /** Every host has ended, every task has finished, and the parent runs. */
  predicate LeftRunning(w: World) {
    AllTerminal(w.db.rows) && Quiescent(w) && w.db.parent.status.Running?
  }

  /** The job is immediate, or some host's window is still to open. */
  ghost predicate Startable(job: Job, n: nat, now: int) {
    job.immediate || exists q: nat, t: int :: q < n && now <= t && job.open(q, t)
  }

  /** A job that can start is free at first, and any other is stuck for good. */
  lemma StartableIsFree(job: Job, n: nat, now: int)
    requires n > 0
    ensures var w := Initial(job, n, now);
            if Startable(job, n, now) then AllFree(w) else forall r: nat :: r < n ==> Stuck(w, r)
  {
    var w := Initial(job, n, now);
    InitialGood(job, n, now);
    if q: nat, t: int :| q < n && now <= t && job.open(q, t) {
      assert CanBeQueued(w, q, t);
    }
    hide Good, StuckRunning;
    if Startable(job, n, now) {
      assert forall r: nat :: r < n ==> !StuckRunning(w, r) && !StuckQueued(w, r);
    }
  }

  /** A job that cannot start stays as it was inserted. */
  lemma NeverStarts(job: Job, n: nat, now: int, acts: seq<Action>)
    requires n > 0 && !Startable(job, n, now)
    ensures var w := Initial(job, n, now);
            !AllTerminal(Run(w, acts).db.rows) && Run(w, acts).db.rows == w.db.rows
  {
    hide Good, Stuck, Startable;
    var w := Initial(job, n, now);
    InitialGood(job, n, now);
    StartableIsFree(job, n, now);
    forall r: nat | r < n ensures |Run(w, acts).db.rows| == n && Run(w, acts).db.rows[r] == w.db.rows[r] {
      StuckRun(w, acts, r);
    }
    assert !w.db.rows[0].Terminal();
    assert |Run(w, acts).db.rows| == n && Run(w, acts).db.rows[0] == w.db.rows[0];
  }

  /** The first dispatch of a job that can start; the given host is still queued then. */
  lemma FirstLaunch(job: Job, n: nat, now: int, r: nat) returns (v: World)
    requires r < n && Startable(job, n, now)
    ensures Launches(Initial(job, n, now), v, r) && Ready(v) && |v.db.rows| == n
    ensures forall q :: 0 <= q < n ==> !v.db.rows[q].Terminal()
  {
    hide Good, StuckRunning, StuckQueued, Launched;
    var w := Initial(job, n, now);
    InitialGood(job, n, now);
    StartableIsFree(job, n, now);
    assert !Stuck(w, r);
    v := LaunchesFree(w, r);
    ReadyOn(w, v);
    assert forall q :: 0 <= q < n ==> !w.db.rows[q].Terminal();
  }

  /** The first host has failed, and its rollup has counted the second as open. */
  lemma StaleRollup(job: Job, n: nat, now: int) returns (w: World, i: nat)
    requires n >= 2 && Startable(job, n, now)
    ensures Leads(Initial(job, n, now), w) && Ready(w) && |w.db.rows| == n && !AllTerminal(w.db.rows)
    ensures i < |w.tasks| && w.tasks[i] == WriteParent(Running)
  {
    hide Good, StuckRunning, Launched, Next;
    var w0 := Initial(job, n, now);
    var v := FirstLaunch(job, n, now, 1);
    var u := FailsNext(v, 0, 1);
    assert !u.db.rows[1].Terminal();
    i :| 0 <= i < |u.tasks| && u.tasks[i] == CountHosts(0);
    StillOpen(u, 1);
    Moves(u, i, FINE, WriteParent(Running));
    w := u.(tasks := u.tasks[i := WriteParent(Running)]);
    ReadyOn(u, w);
    LeadsOn(w0, v, u);
    LeadsOn(w0, u, w);
  }

  lemma StillOpen(w: World, r: nat)
    requires OpenAt(w, r)
    ensures ExecutorRollup(Statuses(w.db.rows)) == Some(Running)
  {
    OpenRows(w.db.rows);
    ExecutorRollupMeaning(Statuses(w.db.rows));
  }

  /**
    A rollup that counted too early may write last: with two hosts or more every job
    that can start has a run without a restart that leaves it running for good.
  */
  lemma StaleRollupLeavesRunning(job: Job, n: nat, now: int)
    requires n >= 2 && Startable(job, n, now)
    ensures exists acts :: Steady(acts) && LeftRunning(Run(Initial(job, n, now), acts))
  {
    hide Good, Next, Launched, StuckRunning, HasFailed;
    var w0 := Initial(job, n, now);
    var w, i := StaleRollup(job, n, now);
    var u := FailsUpTo(w, n, -1);
    GoodMeans(u);
    var v := Finishes(u, i);
    LeadsOn(w0, w, u);
    LeadsOn(w0, u, v);
    LastWrite(v, i);
    LeadsNext(w0, v, Step(i, FINE));
  }

  lemma LastWrite(v: World, i: nat)
    requires AllTerminal(v.db.rows) && i < |v.tasks| && Finished(v.tasks, i) && v.tasks[i] == WriteParent(Running)
    ensures LeftRunning(Next(v, Step(i, FINE)))
  {
    assert Next(v, Step(i, FINE)).tasks == v.tasks[i := Done];
  }

  /**
    Without restarts, a job whose hosts have all ended and whose tasks have all
    finished is sure to have an ended parent exactly if it has one host, or cannot
    start at all.
  */
  lemma FinishedJobsEndIffOneHost(job: Job, n: nat, now: int)
    requires n > 0
    ensures (forall acts :: Steady(acts) ==>
               var w := Run(Initial(job, n, now), acts);
               AllTerminal(w.db.rows) && Quiescent(w) ==> ParentEnded(w))
            <==> n == 1 || !Startable(job, n, now)
  {
    hide Startable;
    if n == 1 || !Startable(job, n, now) {
      forall acts | Steady(acts)
        ensures var w := Run(Initial(job, n, now), acts);
                AllTerminal(w.db.rows) && Quiescent(w) ==> ParentEnded(w)
      {
        if n == 1 {
          SingleHostJobsEnd(job, now, acts);
        } else {
          NeverStarts(job, n, now, acts);
        }
      }
    } else {
      StaleRollupLeavesRunning(job, n, now);
      var acts :| Steady(acts) && LeftRunning(Run(Initial(job, n, now), acts));
      assert !ParentEnded(Run(Initial(job, n, now), acts));
    }
  }

  lemma RestartStep(w: World)
    ensures Run(w, [Restart]) == w.(tasks := [], relays := {})
  {
    assert [Restart][1..] == [];
  }

  /** A run that ends with a restart. */
  lemma RestartAfter(w: World, v: World)
    requires Leads(w, v)
    ensures exists acts :: Run(w, acts) == v.(tasks := [], relays := {})
  {
    var acts :| Steady(acts) && Run(w, acts) == v;
    RunSplit(w, acts, [Restart]);
    RestartStep(v);
    assert Run(w, acts + [Restart]) == v.(tasks := [], relays := {});
  }

  /** With a restart at the wrong time every job that can start, even of one host, can lose the end of its parent. */
  lemma RestartLosesEnd(job: Job, n: nat, now: int)
    requires n > 0 && Startable(job, n, now)
    ensures exists acts :: var w := Run(Initial(job, n, now), acts);
                           AllTerminal(w.db.rows) && w.tasks == [] && !ParentEnded(w) && !ParentCanEnd(w)
  {
    hide Good, AllFree, Next, HasFailed;
    var w0 := Initial(job, n, now);
    InitialGood(job, n, now);
    StartableIsFree(job, n, now);
    assert !w0.db.rows[0].Terminal();
    var v := AllFail(w0);
    var r: nat :| HasFailed(v, r);
    FailedIsOpen(v, r);
    RestartAfter(w0, v);
    var acts :| Run(w0, acts) == v.(tasks := [], relays := {});
    GoodRun(w0, acts);
    FinishedParentCanEnd(Run(w0, acts));
  }

  lemma FailedIsOpen(v: World, r: nat)
    requires HasFailed(v, r)
    ensures !ParentEnded(v)
  {
  }

  // ---------------------------------------------------------------------------
  // Dispatches of which the whole effect is known
  // ---------------------------------------------------------------------------

  /** The state after one dispatch of the job has fetched the queued rows. */
  function Fetched(w: World): World {
    w.(db := w.db.(parent := w.db.parent.MarkRunning(w.now)), tasks := w.tasks + [Done] + QueuedHosts(w.db.rows))
  }

  lemma DispatchLeads(w: World)
    requires CanDispatch(w)
    ensures Leads(w, Fetched(w))
  {
    hide Next, QueuedHosts, Leads;
    var k := |w.tasks|;
    var w1 := w.(tasks := w.tasks + [MarkJobRunning]);
    DispatchStarts(w);
    var w2 := w.(db := w.db.(parent := w.db.parent.MarkRunning(w.now)), tasks := w.tasks + [FetchQueued]);
    MarkStep(w1, k, w.tasks);
    FetchStep(w2, k, w.tasks);
    LeadsNowhere(w);
    LeadsNext(w, w, Dispatch);
    LeadsNext(w, w1, Step(k, FINE));
    LeadsNext(w, w2, Step(k, FINE));
  }

  /** One dispatch of the job: the queued row is in somebody's hands, and all else is as before. */
  lemma Dispatches(w: World, r: nat) returns (v: World, i: nat)
    requires CanDispatch(w) && r < |w.db.rows| && w.db.rows[r].status.Queued?
    ensures v == Fetched(w) && Leads(w, v)
    ensures |w.tasks| <= i < |v.tasks| && v.tasks[i] == FetchHost(r)
    ensures forall j :: 0 <= j < |w.tasks| ==> v.tasks[j] == w.tasks[j]
    ensures forall j :: |w.tasks| <= j < |v.tasks| ==> v.tasks[j].Done? || v.tasks[j].FetchHost?
  {
    v := Fetched(w);
    DispatchLeads(w);
    var q := QueuedAt(w.db.rows, r);
    i := |w.tasks| + 1 + q;
  }

  lemma DispatchStarts(w: World)
    requires CanDispatch(w)
    ensures Next(w, Dispatch) == w.(tasks := w.tasks + [MarkJobRunning])
  {
  }

  lemma MarkStep(w: World, k: nat, tasks: seq<Task>)
    requires k == |tasks| && w.tasks == tasks + [MarkJobRunning]
    ensures Next(w, Step(k, FINE))
            == w.(db := w.db.(parent := w.db.parent.MarkRunning(w.now)), tasks := tasks + [FetchQueued])
  {
    assert w.tasks[k := FetchQueued] == tasks + [FetchQueued];
  }

  lemma FetchStep(w: World, k: nat, tasks: seq<Task>)
    requires k == |tasks| && w.tasks == tasks + [FetchQueued]
    ensures Next(w, Step(k, FINE)) == w.(tasks := tasks + [Done] + QueuedHosts(w.db.rows))
  {
    var hosts := QueuedHosts(w.db.rows);
    assert w.tasks[k := Done] == tasks + [Done];
    assert hosts == [] || (RollupStart(hosts[0]).None? && !hosts[0].Listen?);
  }

  /** The dispatch of a queued row up to its first write. */
  lemma Starts(w: World, i: nat, r: nat)
    requires i < |w.tasks| && w.tasks[i] == FetchHost(r)
    requires r < |w.db.rows| && w.db.rows[r].status.Queued?
    ensures Leads(w, w.(db := WriteRow(w.db, r, w.db.rows[r].MarkRunning(w.now)), tasks := w.tasks[i := CallAgent(r)]))
  {
    hide Leads;
    var w1 := w.(tasks := w.tasks[i := HealthGate(r)]);
    Moves(w, i, FINE, HealthGate(r));
    var w2 := w.(tasks := w.tasks[i := FetchJob(r)]);
    Moves(w1, i, FINE, FetchJob(r));
    assert w1.tasks[i := FetchJob(r)] == w2.tasks;
    var w3 := w.(tasks := w.tasks[i := WriteRunning(r)]);
    Moves(w2, i, FINE, WriteRunning(r));
    assert w2.tasks[i := WriteRunning(r)] == w3.tasks;
    var v := w.(db := WriteRow(w.db, r, w.db.rows[r].MarkRunning(w.now)), tasks := w.tasks[i := CallAgent(r)]);
    StartStep(w3, i, r);
    assert w3.tasks[i := CallAgent(r)] == v.tasks;
    LeadsOn(w, w1, w2);
    LeadsOn(w, w2, w3);
    LeadsNext(w, w3, Step(i, FINE));
  }

  lemma StartStep(w: World, i: nat, r: nat)
    requires i < |w.tasks| && w.tasks[i] == WriteRunning(r) && r < |w.db.rows|
    ensures Next(w, Step(i, FINE))
            == w.(db := WriteRow(w.db, r, w.db.rows[r].MarkRunning(w.now)), tasks := w.tasks[i := CallAgent(r)])
  {
  }

  /** A job that can start can be dispatched some time. */
  lemma FirstDispatch(job: Job, n: nat, now: int) returns (t: int)
    requires n > 0 && Startable(job, n, now)
    ensures Leads(Initial(job, n, now), Initial(job, n, t)) && CanDispatch(Initial(job, n, t))
  {
    var w := Initial(job, n, now);
    LeadsNowhere(w);
    t := now;
    if !job.immediate {
      var q: nat, u: int :| q < n && now <= u && job.open(q, u);
      t := u;
      var v := Initial(job, n, t);
      assert Next(w, Tick(t - now)) == v;
      assert QueuedDue(job, t, v.db.parent, job.open(q, t), v.db.rows[q]);
      hide Next;
      LeadsNext(w, w, Tick(t - now));
    }
  }

  /** The first fetch of the queued hosts, with one of them. */
  lemma FirstFetch(job: Job, n: nat, now: int, r: nat) returns (w: World, i: nat)
    requires r < n && Startable(job, n, now)
    ensures Leads(Initial(job, n, now), w) && exists t: int :: CanDispatch(Initial(job, n, t)) && w == Fetched(Initial(job, n, t))
    ensures i < |w.tasks| && w.tasks[i] == FetchHost(r)
  {
    hide Next, CanDispatch;
    var t := FirstDispatch(job, n, now);
    var w0 := Initial(job, n, t);
    w, i := Dispatches(w0, r);
    LeadsOn(Initial(job, n, now), w0, w);
  }
}
