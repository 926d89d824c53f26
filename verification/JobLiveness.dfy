/**
  What can still happen to a host. From every reachable state, whatever is in flight,
  some continuation ends it, exactly unless it is stuck: running where no scan looks,
  or queued with no window left that could get the job dispatched.
*/
module JobLiveness {
  import opened Wrappers
  import opened JobRows
  import opened JobRollup
  import opened JobProtocol
  import opened JobSafety
  import opened JobProgress
  import opened JobHands
  import opened JobWindows

  // ---------------------------------------------------------------------------
  // Stuck rows
  // ---------------------------------------------------------------------------

  /** Running, not accepted, in nobody's hands, and never to time out. */
  predicate StuckRunning(w: World, r: nat) {
    r < |w.db.rows| && Unaccepted(w.db.rows[r]) && Untouched(w, r) && !HasTimeout(w.job)
  }

  /** Nobody is about to fetch the queued hosts. */
  predicate NobodyFetches(w: World) {
    forall i :: 0 <= i < |w.tasks| ==> !w.tasks[i].MarkJobRunning? && !w.tasks[i].FetchQueued?
  }

  /** Some host of the job can be in the queue while its window is open. */
  ghost predicate WindowReachable(w: World) {
    exists q: nat, t: int :: w.job.open(q, t) && CanBeQueued(w, q, t)
  }

  /** Queued, in nobody's hands, and never to be fetched. */
  ghost predicate StuckQueued(w: World, r: nat) {
    && r < |w.db.rows| && w.db.rows[r].status.Queued? && Untouched(w, r)
    && !w.job.immediate && NobodyFetches(w) && !WindowReachable(w)
  }

  ghost predicate Stuck(w: World, r: nat) {
    StuckRunning(w, r) || StuckQueued(w, r)
  }

  lemma StuckRunningTask(w: World, i: nat, a: Answer, r: nat)
    requires Good(w) && StuckRunning(w, r) && i < |w.tasks|
    ensures StuckRunning(Next(w, Step(i, a)), r) && Next(w, Step(i, a)).db.rows[r] == w.db.rows[r]
  {
    hide Execute, Recorded, Noticed, Tracked, Overwritten, Touches, Serves, DbOk, Told, Known, Sound, InHand;
    assert TaskOk(w.tasks[i], w.db.rows);
    TaskPassesOn(w, i, a, r);
  }

  lemma StuckRunningStart(w: World, act: Action, r: nat)
    requires StuckRunning(w, r) && !act.Step?
    ensures StuckRunning(Next(w, act), r) && Next(w, act).db.rows[r] == w.db.rows[r]
  {
    hide CanDispatch, StepTask, Touches;
    var w' := Next(w, act);
    forall j | 0 <= j < |w'.tasks| ensures !Touches(w'.tasks[j], r) {
      if j < |w.tasks| {
        assert w'.tasks[j] == w.tasks[j];
      } else {
        RunningUntouched(w, act, r, j);
      }
    }
  }

  /** A scan starts nothing on a running row that is neither accepted nor to time out. */
  lemma RunningUntouched(w: World, act: Action, r: nat, j: nat)
    requires !act.Step? && r < |w.db.rows| && Unaccepted(w.db.rows[r]) && !HasTimeout(w.job)
    requires |w.tasks| <= j < |Next(w, act).tasks|
    ensures !Touches(Next(w, act).tasks[j], r)
  {
    hide CanDispatch, StepTask;
  }

  /** Nothing moves a row any more that is stuck running, not even another restart. */
  lemma StuckRunningStep(w: World, act: Action, r: nat)
    requires Good(w) && StuckRunning(w, r)
    ensures StuckRunning(Next(w, act), r) && Next(w, act).db.rows[r] == w.db.rows[r]
  {
    hide Good, StuckRunning;
    if act.Step? {
      if act.task < |w.tasks| {
        StuckRunningTask(w, act.task, act.answer, r);
      } else {
        StaysStuck(w, r);
      }
    } else {
      StuckRunningStart(w, act, r);
    }
  }

  lemma StaysStuck(w: World, r: nat)
    requires StuckRunning(w, r)
    ensures r < |w.db.rows|
  {
  }

  lemma FetchesNoMore(job: Job, now: int, db: Db, t: Task, a: Answer)
    requires InRange(t, |db.rows|) && !t.MarkJobRunning? && !t.FetchQueued?
    ensures var e := Execute(job, now, db, t, a);
            && !e.next.MarkJobRunning? && !e.next.FetchQueued?
            && forall k :: 0 <= k < |e.spawned| ==> !e.spawned[k].MarkJobRunning? && !e.spawned[k].FetchQueued?
  {
    hide ExecutorRollup, RelayRollup, OpenCount;
  }

  lemma CannotDispatch(w: World)
    requires Good(w) && !w.job.immediate && !WindowReachable(w)
    ensures !CanDispatch(w)
  {
    if CanDispatch(w) {
      var r :| 0 <= r < |w.db.rows| && QueuedDue(w.job, w.now, w.db.parent, w.job.open(r, w.now), w.db.rows[r]);
      assert CanBeQueued(w, r, w.now);
    }
  }

  lemma StuckQueuedTask(w: World, i: nat, a: Answer, r: nat)
    requires Good(w) && StuckQueued(w, r) && i < |w.tasks|
    ensures var w' := Next(w, Step(i, a));
            && |w'.db.rows| == |w.db.rows| && w'.db.rows[r] == w.db.rows[r] && Untouched(w', r) && NobodyFetches(w')
  {
    hide Execute, Recorded, Noticed, Tracked, Overwritten, Touches, Serves, DbOk, Told, WindowReachable;
    assert TaskOk(w.tasks[i], w.db.rows);
    TaskPassesOn(w, i, a, r);
    FetchesNoMore(w.job, w.now, w.db, w.tasks[i], Told(w, w.tasks[i], a));
  }

  /** Nor does anything move a row that is stuck queued. */
  lemma StuckQueuedStep(w: World, act: Action, r: nat)
    requires Good(w) && StuckQueued(w, r)
    ensures StuckQueued(Next(w, act), r) && Next(w, act).db.rows[r] == w.db.rows[r]
  {
    hide StepTask, Good, CanBeQueued, Touches, CanDispatch;
    var w' := Next(w, act);
    forall q: nat, t: int | w'.job.open(q, t) && CanBeQueued(w', q, t) ensures false {
      BackStep(w, act, q, t);
      JobStays(w, act);
    }
    JobStays(w, act);
    CannotDispatch(w);
    if act.Step? {
      if act.task < |w.tasks| {
        StuckQueuedTask(w, act.task, act.answer, r);
      }
    } else {
      forall j | 0 <= j < |w'.tasks|
        ensures !Touches(w'.tasks[j], r) && !w'.tasks[j].MarkJobRunning? && !w'.tasks[j].FetchQueued?
      {
        if j < |w.tasks| {
          assert w'.tasks[j] == w.tasks[j];
        } else {
          StartsUntouched(w, act, r, j);
        }
      }
    }
  }

  lemma {:induction false} StuckRun(w: World, acts: seq<Action>, r: nat)
    requires Good(w) && Stuck(w, r)
    ensures Stuck(Run(w, acts), r) && |Run(w, acts).db.rows| == |w.db.rows|
    ensures Run(w, acts).db.rows[r] == w.db.rows[r]
    decreases |acts|
  {
    hide Next, Good, StuckRunning, StuckQueued;
    if acts != [] {
      GoodStep(w, acts[0]);
      GoodMeans(w);
      NextOk(w, acts[0]);
      StuckInRange(w, r);
      if StuckRunning(w, r) {
        StuckRunningStep(w, acts[0], r);
      } else {
        StuckQueuedStep(w, acts[0], r);
      }
      StuckRun(Next(w, acts[0]), acts[1..], r);
    } else {
      StuckInRange(w, r);
    }
  }

  lemma StuckInRange(w: World, r: nat)
    requires Stuck(w, r)
    ensures r < |w.db.rows| && !w.db.rows[r].Terminal()
  {
  }

  /** Only a restart can leave a row stuck running. */
  lemma FreeStep(w: World, act: Action, r: nat)
    requires Good(w) && !act.Restart? && r < |w.db.rows| && !StuckRunning(w, r)
    ensures !StuckRunning(Next(w, act), r)
  {
    if act.Step? && act.task < |w.tasks| {
      hide Recorded, Noticed, Tracked, Overwritten, Told;
      assert TaskOk(w.tasks[act.task], w.db.rows);
      TaskPassesOn(w, act.task, act.answer, r);
      FreeTask(w, act.task, act.answer, r);
    } else {
      hide StepTask, Inv, Known, Sound, InHand, CanDispatch;
      var w' := Next(w, act);
      if Unaccepted(w.db.rows[r]) && !HasTimeout(w.job) {
        var j :| 0 <= j < |w.tasks| && Touches(w.tasks[j], r);
        assert w'.tasks[j] == w.tasks[j];
      }
    }
  }

  lemma FreeTask(w: World, i: nat, a: Answer, r: nat)
    requires i < |w.tasks| && r < |w.db.rows| && !StuckRunning(w, r) && InRange(w.tasks[i], |w.db.rows|)
    requires PassesOn(w.db, w.tasks[i], Execute(w.job, w.now, w.db, w.tasks[i], Told(w, w.tasks[i], a)), r)
    ensures !StuckRunning(StepTask(w, i, a), r)
  {
    hide Execute, Recorded, Noticed, Tracked, Overwritten, Touches, Serves, Told;
    var t := w.tasks[i];
    var e := Execute(w.job, w.now, w.db, t, Told(w, t, a));
    var w' := StepTask(w, i, a);
    if Unaccepted(w'.db.rows[r]) && !HasTimeout(w'.job) {
      if Touches(t, r) {
        if Touches(e.next, r) {
          assert w'.tasks[i] == e.next;
        } else {
          var k :| 0 <= k < |e.spawned| && Touches(e.spawned[k], r);
          assert w'.tasks[|w.tasks| + k] == e.spawned[k];
        }
      } else {
        var j :| 0 <= j < |w.tasks| && Touches(w.tasks[j], r);
        assert w'.tasks[j] == w.tasks[j];
      }
    }
  }

  lemma {:induction false} FreeRun(w: World, acts: seq<Action>, r: nat)
    requires Good(w) && Steady(acts) && r < |w.db.rows| && !StuckRunning(w, r)
    ensures !StuckRunning(Run(w, acts), r)
    decreases |acts|
  {
    hide Next, Good, StuckRunning, Inv;
    if acts != [] {
      GoodStep(w, acts[0]);
      FreeStep(w, acts[0], r);
      GoodMeans(w);
      NextOk(w, acts[0]);
      FreeRun(Next(w, acts[0]), acts[1..], r);
    }
  }

  lemma {:induction false} LaunchedRun(w: World, acts: seq<Action>)
    requires Good(w) && Launched(w) && Steady(acts)
    ensures Launched(Run(w, acts))
    decreases |acts|
  {
    hide Next, Launched, Inv, Known, Sound, InHand;
    if acts != [] {
      GoodStep(w, acts[0]);
      InHandStep(w, acts[0]);
      LaunchedRun(Next(w, acts[0]), acts[1..]);
    }
  }

  // ---------------------------------------------------------------------------
  // A row can always be made to fail, unless it is stuck
  // ---------------------------------------------------------------------------

  /** The row has failed, its rollup is about to count, and the parent has not ended. */
  predicate HasFailed(v: World, r: nat) {
    && r < |v.db.rows| && v.db.rows[r].status.Failed? && !v.db.parent.status.Terminal()
    && exists i :: 0 <= i < |v.tasks| && v.tasks[i] == CountHosts(r)
  }

  ghost predicate Fails(w: World, v: World, r: nat) {
    Leads(w, v) && Good(v) && KeepsRollups(w, v) && KeepsQueued(w, v, r) && HasFailed(v, r) && v.job == w.job
  }

  lemma FailsFirst(w: World, act: Action, v: World, r: nat)
    requires !act.Restart? && Fails(Next(w, act), v, r)
    requires KeepsRollups(w, Next(w, act)) && KeepsQueued(w, Next(w, act), r)
    ensures Fails(w, v, r)
  {
    JobStays(w, act);
    hide Next, Good;
    LeadsFirst(w, act, v);
  }

  lemma FailsByWrite(w: World, i: nat, r: nat) returns (v: World)
    requires Good(w) && i < |w.tasks| && w.tasks[i].WriteFailed? && w.tasks[i].row == r && OpenAt(w, r)
    ensures Fails(w, v, r)
  {
    v := Next(w, Step(i, BAD));
    OpenParent(w, r);
    GoodStep(w, Step(i, BAD));
    assert TaskOk(w.tasks[i], w.db.rows);
    hide Good;
    assert v.tasks[i] == CountHosts(r);
    LeadsNowhere(v);
    LeadsFirst(w, Step(i, BAD), v);
  }

  /** The failure handler reads the row. */
  lemma {:induction false} FailsByRetry(w: World, i: nat, r: nat) returns (v: World)
    requires Good(w) && i < |w.tasks| && w.tasks[i].ReadRetry? && w.tasks[i].row == r && OpenAt(w, r)
    ensures Fails(w, v, r)
    decreases 3 - w.db.rows[r].retryCount, 1, 0
  {
    OpenParent(w, r);
    StepsQuietly(w, i, BAD, r);
    var w' := Next(w, Step(i, BAD));
    ReadsRetry(w, i, r);
    hide Good, Next, Fails, EndsNone, KeepsRollups, KeepsQueued;
    if w.db.rows[r].retryCount < 3 {
      v := FailsByPending(w', i, r);
    } else {
      v := FailsByWrite(w', i, r);
    }
    FailsFirst(w, Step(i, BAD), v, r);
  }

  lemma ReadsRetry(w: World, i: nat, r: nat)
    requires Good(w) && i < |w.tasks| && w.tasks[i].ReadRetry? && w.tasks[i].row == r && OpenAt(w, r)
    ensures var w' := Next(w, Step(i, BAD));
            && OpenAt(w', r) && i < |w'.tasks| && |w'.db.rows| == |w.db.rows|
            && (if w.db.rows[r].retryCount < 3 then
                  w'.tasks[i].WritePending? && w'.tasks[i].row == r
                  && w'.tasks[i].count == w.db.rows[r].retryCount + 1
                else w'.tasks[i].WriteFailed? && w'.tasks[i].row == r)
  {
    StepsQuietly(w, i, BAD, r);
    hide Next, Good;
  }

  /** The failure handler writes a retry. */
  lemma {:induction false} FailsByPending(w: World, i: nat, r: nat) returns (v: World)
    requires Good(w) && i < |w.tasks| && w.tasks[i].WritePending? && w.tasks[i].row == r && OpenAt(w, r)
    ensures Fails(w, v, r)
    decreases 3 - w.tasks[i].count, 5, 0
  {
    StepsQuietly(w, i, BAD, r);
    var w' := Next(w, Step(i, BAD));
    var t := w.tasks[i];
    assert w'.db.rows[r] == w.db.rows[r].MarkPending(t.count, t.retryAt, t.error);
    assert TaskOk(t, w.db.rows);
    hide Good, Next, Fails, EndsNone, KeepsRollups, KeepsQueued;
    v := FailsBackingOff(w', r);
    FailsFirst(w, Step(i, BAD), v, r);
  }

  /** The retry scan finds the row once its time has come. */
  lemma {:induction false} FailsBackingOff(w: World, r: nat) returns (v: World)
    requires Good(w) && r < |w.db.rows| && BacksOff(w.db.rows[r])
    ensures Fails(w, v, r)
    decreases 3 - w.db.rows[r].retryCount, 4, 0
  {
    OpenParent(w, r);
    var row := w.db.rows[r];
    assert RowOk(row);
    var wait := if row.retryNextAt.value > w.now then row.retryNextAt.value - w.now else 0;
    StartsQuietly(w, Tick(wait));
    var w1 := Next(w, Tick(wait));
    StartsQuietly(w1, ScanRetries);
    var w2 := Next(w1, ScanRetries);
    assert RetryDue(w1.now, w1.db.parent, w1.db.rows[r]);
    assert w2.tasks[|w1.tasks|] == ResetRows(DueForRetry(w1.now, w1.db));
    hide Good, Next, Fails, EndsNone, KeepsRollups, KeepsQueued;
    v := FailsByReset(w2, |w1.tasks|, r);
    FailsFirst(w1, ScanRetries, v, r);
    FailsFirst(w, Tick(wait), v, r);
  }

  /** The retry scan reaches the row and dispatches it again. */
  lemma {:induction false} FailsByReset(w: World, i: nat, r: nat) returns (v: World)
    requires Good(w) && i < |w.tasks| && w.tasks[i].ResetRows? && r in w.tasks[i].rows && OpenAt(w, r)
    ensures Fails(w, v, r)
    decreases 3 - w.db.rows[r].retryCount, 3, |w.tasks[i].rows|
  {
    StepsQuietly(w, i, BAD, r);
    var rs := w.tasks[i].rows;
    var w' := Next(w, Step(i, BAD));
    ResetStep(w, i, r);
    hide Good, Next, Fails, EndsNone, KeepsRollups, KeepsQueued;
    if rs[0] == r {
      v := FailsByFetch(w', |w.tasks|, r);
    } else {
      v := FailsByReset(w', i, r);
    }
    FailsFirst(w, Step(i, BAD), v, r);
  }

  lemma ResetStep(w: World, i: nat, r: nat)
    requires Good(w) && i < |w.tasks| && w.tasks[i].ResetRows? && r in w.tasks[i].rows && OpenAt(w, r)
    ensures var rs := w.tasks[i].rows;
            var w' := Next(w, Step(i, BAD));
            && OpenAt(w', r) && w'.db.rows[r].retryCount == w.db.rows[r].retryCount
            && i < |w'.tasks| && w'.tasks[i] == ResetRows(rs[1..])
            && (if rs[0] == r then |w'.tasks| > |w.tasks| && w'.tasks[|w.tasks|] == FetchHost(r) else r in rs[1..])
  {
    var rs := w.tasks[i].rows;
    assert TaskOk(w.tasks[i], w.db.rows);
    assert rs[0] in rs && rs == [rs[0]] + rs[1..];
    StepsQuietly(w, i, BAD, r);
    hide Next, Good;
  }

  /** The dispatcher cannot find the host. */
  lemma {:induction false} FailsByFetch(w: World, i: nat, r: nat) returns (v: World)
    requires Good(w) && i < |w.tasks| && w.tasks[i] == FetchHost(r) && OpenAt(w, r)
    ensures Fails(w, v, r)
    decreases 3 - w.db.rows[r].retryCount, 2, 0
  {
    v := FailsByAnswer(w, i, r, Raw(""));
  }

  /** A task whose bad answer goes to the failure handler. */
  lemma {:induction false} FailsByAnswer(w: World, i: nat, r: nat, error: Text) returns (v: World)
    requires Good(w) && i < |w.tasks| && CannotEnd(w.tasks[i]) && InRange(w.tasks[i], |w.db.rows|) && OpenAt(w, r)
    requires WritesOnly(w.tasks[i], r)
    requires Execute(w.job, w.now, w.db, w.tasks[i], Told(w, w.tasks[i], BAD)) == Goto(w.db, ReadRetry(r, error))
    ensures Fails(w, v, r)
    decreases 3 - w.db.rows[r].retryCount, 1, 1
  {
    StepsQuietly(w, i, BAD, r);
    var w' := Next(w, Step(i, BAD));
    assert w'.tasks[i] == ReadRetry(r, error);
    hide Good, Next, Fails, EndsNone, KeepsRollups, KeepsQueued, Execute;
    v := FailsByRetry(w', i, r);
    FailsFirst(w, Step(i, BAD), v, r);
  }

  /** A row the agent has accepted, polled. */
  lemma FailsAccepted(w: World, r: nat) returns (v: World)
    requires Good(w) && r < |w.db.rows| && Pollable(w.db.rows[r])
    ensures Fails(w, v, r)
  {
    var i := PollStarts(w, r);
    hide Good, Next, Fails, EndsNone, KeepsRollups, KeepsQueued;
    v := FailsByPoll(Next(w, ScanRunning), i, r);
    FailsFirst(w, ScanRunning, v, r);
  }

  lemma FailsByPoll(w: World, i: nat, r: nat) returns (v: World)
    requires Good(w) && i < |w.tasks| && w.tasks[i] == PollAgent(r) && OpenAt(w, r)
    ensures Fails(w, v, r)
  {
    if w.job.kind.SelfUpgrade? {
      StepsQuietly(w, i, BAD, r);
      var w' := Next(w, Step(i, BAD));
      assert w'.tasks[i] == ConfirmUpgrade(r, 0);
      hide Good, Next, Fails, EndsNone, KeepsRollups, KeepsQueued;
      v := FailsByAnswer(w', i, r, Raw(""));
      FailsFirst(w, Step(i, BAD), v, r);
    } else {
      hide Good, Next, Fails, EndsNone, KeepsRollups, KeepsQueued;
      v := FailsByAnswer(w, i, r, JobLost(""));
    }
  }

  /** A task that has an unaccepted row in hand. */
  lemma FailsInHand(w: World, i: nat, r: nat) returns (v: World)
    requires Good(w) && i < |w.tasks| && Touches(w.tasks[i], r)
    requires r < |w.db.rows| && Unaccepted(w.db.rows[r])
    ensures Fails(w, v, r)
  {
    assert TaskOk(w.tasks[i], w.db.rows);
    assert ServesAccepted(w.tasks[i], w.db.rows);
    assert !Serves(w.tasks[i], r);
    hide Good, Next, Fails, EndsNone, KeepsRollups, KeepsQueued;
    match w.tasks[i]
    case FetchHost(_) => v := FailsByFetch(w, i, r);
    case HealthGate(_) => v := FailsByHealth(w, i, r);
    case WindowGate(_) => v := FailsByGate(w, i, r);
    case WriteWaiting(_, _) => v := FailsByWaiting(w, i, r);
    case FetchJob(_) => v := FailsByAnswer(w, i, r, Raw(""));
    case WriteRunning(_) => v := FailsByStart(w, i, r);
    case CallAgent(_) => v := FailsByAnswer(w, i, r, Raw(""));
    case WriteAgentJob(_, _) => v := FailsByAccept(w, i, r);
    case ReadRetry(_, _) => v := FailsByRetry(w, i, r);
    case WritePending(_, _, _, _) => v := FailsByPending(w, i, r);
    case WriteFailed(_, _) => v := FailsByWrite(w, i, r);
    case ResetRows(_) => v := FailsByReset(w, i, r);
    case FailRows(_) => v := FailsOverdue(w, i, r);
    case _ => assert false;
  }

  /** The health checks pass, and then the job is not found. */
  lemma FailsByHealth(w: World, i: nat, r: nat) returns (v: World)
    requires Good(w) && i < |w.tasks| && w.tasks[i] == HealthGate(r) && OpenAt(w, r)
    ensures Fails(w, v, r)
  {
    StepsQuietly(w, i, FINE, r);
    var w' := Next(w, Step(i, FINE));
    assert w'.tasks[i] == FetchJob(r) && w'.db == w.db;
    hide Good, Next, Fails, EndsNone, KeepsRollups, KeepsQueued;
    v := FailsByAnswer(w', i, r, Raw(""));
    FailsFirst(w, Step(i, FINE), v, r);
  }

  lemma FailsByGate(w: World, i: nat, r: nat) returns (v: World)
    requires Good(w) && i < |w.tasks| && w.tasks[i] == WindowGate(r) && OpenAt(w, r)
    ensures Fails(w, v, r)
  {
    if w.job.open(r, w.now) {
      StepsQuietly(w, i, BAD, r);
      var w' := Next(w, Step(i, BAD));
      assert w'.tasks[i] == WriteWaiting(r, w.now + 300) && w'.db == w.db;
      hide Good, Next, Fails, EndsNone, KeepsRollups, KeepsQueued;
      v := FailsByWaiting(w', i, r);
      FailsFirst(w, Step(i, BAD), v, r);
    } else {
      hide Good, Next, Fails, EndsNone, KeepsRollups, KeepsQueued;
      v := FailsByAnswer(w, i, r, WindowClosed);
    }
  }

  lemma FailsByWaiting(w: World, i: nat, r: nat) returns (v: World)
    requires Good(w) && i < |w.tasks| && w.tasks[i].WriteWaiting? && w.tasks[i].row == r && OpenAt(w, r)
    ensures Fails(w, v, r)
  {
    StepsQuietly(w, i, BAD, r);
    var w' := Next(w, Step(i, BAD));
    assert w'.db.rows[r] == w.db.rows[r].MarkWaiting(w.tasks[i].retryAt);
    hide Good, Next, Fails, EndsNone, KeepsRollups, KeepsQueued;
    v := FailsBackingOff(w', r);
    FailsFirst(w, Step(i, BAD), v, r);
  }

  lemma FailsByStart(w: World, i: nat, r: nat) returns (v: World)
    requires Good(w) && i < |w.tasks| && w.tasks[i] == WriteRunning(r) && OpenAt(w, r)
    ensures Fails(w, v, r)
  {
    StepsQuietly(w, i, BAD, r);
    var w' := Next(w, Step(i, BAD));
    assert w'.tasks[i] == CallAgent(r) && w'.db.rows[r] == w.db.rows[r].MarkRunning(w.now);
    hide Good, Next, Fails, EndsNone, KeepsRollups, KeepsQueued;
    v := FailsByAnswer(w', i, r, Raw(""));
    FailsFirst(w, Step(i, BAD), v, r);
  }

  lemma FailsByAccept(w: World, i: nat, r: nat) returns (v: World)
    requires Good(w) && i < |w.tasks| && w.tasks[i].WriteAgentJob? && w.tasks[i].row == r
    requires r < |w.db.rows| && w.db.rows[r].status.Running?
    ensures Fails(w, v, r)
  {
    StepsQuietly(w, i, BAD, r);
    var w' := Next(w, Step(i, BAD));
    assert w'.db.rows[r] == w.db.rows[r].StoreAgentJob(w.tasks[i].agentJob);
    hide Good, Next, Fails, EndsNone, KeepsRollups, KeepsQueued;
    v := FailsAccepted(w', r);
    FailsFirst(w, Step(i, BAD), v, r);
  }

  /** The timeout scan reaches the row, and perhaps fails others on the way. */
  lemma {:induction false} FailsOverdue(w: World, i: nat, r: nat) returns (v: World)
    requires Good(w) && i < |w.tasks| && w.tasks[i].FailRows? && r in w.tasks[i].rows
    requires r < |w.db.rows| && w.db.rows[r].status.Running?
    ensures Fails(w, v, r)
    decreases |w.tasks[i].rows|
  {
    OpenParent(w, r);
    GoodStep(w, Step(i, BAD));
    OverdueStep(w, i, r);
    var w' := Next(w, Step(i, BAD));
    hide Good, Next, KeepsRollups, KeepsQueued;
    if w.tasks[i].rows[0] == r {
      v := w';
      LeadsNowhere(v);
      LeadsFirst(w, Step(i, BAD), v);
      assert v.tasks[|w.tasks|] == CountHosts(r);
    } else {
      v := FailsOverdue(w', i, r);
      FailsFirst(w, Step(i, BAD), v, r);
    }
  }

  lemma OverdueStep(w: World, i: nat, r: nat)
    requires Good(w) && i < |w.tasks| && w.tasks[i].FailRows? && r in w.tasks[i].rows
    requires r < |w.db.rows| && w.db.rows[r].status.Running?
    ensures var rs := w.tasks[i].rows;
            var w' := Next(w, Step(i, BAD));
            && KeepsRollups(w, w') && KeepsQueued(w, w', r) && w'.db.parent == w.db.parent && w'.job == w.job
            && (if rs[0] == r then
                  w'.db.rows[r].status.Failed? && |w'.tasks| > |w.tasks| && w'.tasks[|w.tasks|] == CountHosts(r)
                else
                  && w'.db.rows[r] == w.db.rows[r] && i < |w'.tasks|
                  && w'.tasks[i] == FailRows(rs[1..]) && r in rs[1..])
  {
    var rs := w.tasks[i].rows;
    assert TaskOk(w.tasks[i], w.db.rows);
    assert rs[0] in rs && rs == [rs[0]] + rs[1..];
    OverdueExecute(w.now, w.db, rs, r);
    hide Good, ScanStep, Recorded, Noticed, Tracked, Overwritten;
  }

  lemma OverdueExecute(now: int, db: Db, rs: seq<nat>, r: nat)
    requires InRange(FailRows(rs), |db.rows|) && r in rs && r < |db.rows| && db.rows[r].status.Running?
    ensures var e := ScanStep(now, db, FailRows(rs), BAD);
            && e.next == FailRows(rs[1..]) && e.db.parent == db.parent && |e.db.rows| == |db.rows|
            && (forall q :: 0 <= q < |db.rows| && db.rows[q].status.Queued? ==> e.db.rows[q] == db.rows[q])
            && (if rs[0] == r then e.db.rows[r].status.Failed? && e.spawned == [CountHosts(r)]
                else e.db.rows[r] == db.rows[r])
  {
    assert rs[0] in rs;
  }

  lemma FailsTimedOut(w: World, r: nat) returns (v: World)
    requires Good(w) && r < |w.db.rows| && w.db.rows[r].status.Running? && HasTimeout(w.job)
    ensures Fails(w, v, r)
  {
    var row := w.db.rows[r];
    assert RowOk(row);
    var due := row.startedAt.value + w.job.timeoutSecs + 1;
    var wait := if due > w.now then due - w.now else 0;
    StartsQuietly(w, Tick(wait));
    var w1 := Next(w, Tick(wait));
    StartsQuietly(w1, ScanTimeouts);
    var w2 := Next(w1, ScanTimeouts);
    assert TimedOut(w1.job, w1.now, w1.db.rows[r]);
    assert w2.tasks[|w1.tasks|] == FailRows(DueForTimeout(w1.job, w1.now, w1.db));
    hide Good, Next, Fails, EndsNone, KeepsRollups, KeepsQueued;
    v := FailsOverdue(w2, |w1.tasks|, r);
    FailsFirst(w1, ScanTimeouts, v, r);
    FailsFirst(w, Tick(wait), v, r);
  }

  /** A queued row that a task carries on. */
  lemma FailsCarried(w: World, i: nat, r: nat) returns (v: World)
    requires Good(w) && i < |w.tasks| && Carries(w.tasks[i], r) && OpenAt(w, r)
    ensures Fails(w, v, r)
  {
    assert TaskOk(w.tasks[i], w.db.rows);
    hide Good, Next, Fails, EndsNone, KeepsRollups, KeepsQueued;
    match w.tasks[i]
    case FetchHost(_) => v := FailsByFetch(w, i, r);
    case HealthGate(_) => v := FailsByHealth(w, i, r);
    case WindowGate(_) => v := FailsByGate(w, i, r);
    case WriteWaiting(_, _) => v := FailsByWaiting(w, i, r);
    case FetchJob(_) => v := FailsByAnswer(w, i, r, Raw(""));
    case WriteRunning(_) => v := FailsByStart(w, i, r);
    case ReadRetry(_, _) => v := FailsByRetry(w, i, r);
    case WritePending(_, _, _, _) => v := FailsByPending(w, i, r);
    case WriteFailed(_, _) => v := FailsByWrite(w, i, r);
  }

  /** An open row that is in hand if it is queued, and not stuck if it runs. */
  lemma FailsOpen(w: World, r: nat) returns (v: World)
    requires Good(w) && OpenAt(w, r) && !StuckRunning(w, r)
    requires w.db.rows[r].status.Queued? ==> Carried(w, r)
    ensures Fails(w, v, r)
  {
    hide Good, Fails, Touches, Carries;
    match w.db.rows[r].status
    case Queued =>
      var i :| 0 <= i < |w.tasks| && Carries(w.tasks[i], r);
      v := FailsCarried(w, i, r);
    case Pending | WaitingHealthCheck => v := FailsBackingOff(w, r);
    case Running =>
      if w.db.rows[r].agentJobId.Some? {
        v := FailsAccepted(w, r);
      } else if HasTimeout(w.job) {
        v := FailsTimedOut(w, r);
      } else {
        var i :| 0 <= i < |w.tasks| && Touches(w.tasks[i], r);
        v := FailsInHand(w, i, r);
      }
  }

  // ---------------------------------------------------------------------------
  // Getting the job dispatched
  // ---------------------------------------------------------------------------

  /** A continuation that puts every queued row in somebody's hands, with the row still queued. */
  ghost predicate Launches(w: World, v: World, r: nat) {
    && Leads(w, v) && Good(v) && v.job == w.job && Launched(v)
    && EndsNone(w, v) && KeepsRollups(w, v) && OpenAt(v, r) && v.db.rows[r].status.Queued?
  }

  lemma LaunchesFirst(w: World, act: Action, v: World, r: nat)
    requires !act.Restart? && Launches(Next(w, act), v, r)
    requires EndsNone(w, Next(w, act)) && KeepsRollups(w, Next(w, act))
    ensures Launches(w, v, r)
  {
    JobStays(w, act);
    hide Next, Good, Launched;
    LeadsFirst(w, act, v);
  }

  lemma FetchedAreCarried(tasks: seq<Task>, rows: seq<HostRow>, q: nat)
    requires q < |rows| && rows[q].status.Queued?
    ensures exists i :: 0 <= i < |tasks + QueuedHosts(rows)| && Carries((tasks + QueuedHosts(rows))[i], q)
  {
    var k := QueuedAt(rows, q);
    var hosts := QueuedHosts(rows);
    hide QueuedHosts;
    assert (tasks + hosts)[|tasks| + k] == FetchHost(q);
  }

  lemma FetchLaunches(w: World, i: nat)
    requires Good(w) && i < |w.tasks| && w.tasks[i] == FetchQueued
    ensures var v := Next(w, Step(i, FINE));
            && v.db == w.db && v.tasks == w.tasks[i := Done] + QueuedHosts(w.db.rows) && Launched(v)
  {
    StepsQuietly(w, i, FINE, 0);
    var v := Next(w, Step(i, FINE));
    assert v.db == w.db && v.tasks == w.tasks[i := Done] + QueuedHosts(w.db.rows);
    hide Good, Next, Execute, QueuedHosts, Carries;
    forall q | 0 <= q < |v.db.rows| && v.db.rows[q].status.Queued? ensures Carried(v, q) {
      FetchedAreCarried(w.tasks[i := Done], w.db.rows, q);
    }
  }

  lemma LaunchesByFetch(w: World, i: nat, r: nat) returns (v: World)
    requires Good(w) && i < |w.tasks| && w.tasks[i] == FetchQueued
    requires r < |w.db.rows| && w.db.rows[r].status.Queued?
    ensures Launches(w, v, r)
  {
    StepsQuietly(w, i, FINE, r);
    FetchLaunches(w, i);
    hide Good, Next, Execute, Launched;
    v := Next(w, Step(i, FINE));
    LeadsNowhere(v);
    LeadsFirst(w, Step(i, FINE), v);
  }

  lemma LaunchesByMark(w: World, i: nat, r: nat) returns (v: World)
    requires Good(w) && i < |w.tasks| && w.tasks[i] == MarkJobRunning
    requires r < |w.db.rows| && w.db.rows[r].status.Queued?
    ensures Launches(w, v, r)
  {
    StepsQuietly(w, i, FINE, r);
    var w' := Next(w, Step(i, FINE));
    assert w'.tasks[i] == FetchQueued && w'.db.rows == w.db.rows;
    hide Good, Next, Launches, EndsNone, KeepsRollups;
    v := LaunchesByFetch(w', i, r);
    LaunchesFirst(w, Step(i, FINE), v, r);
  }

  lemma LaunchesByDispatch(w: World, r: nat) returns (v: World)
    requires Good(w) && CanDispatch(w) && r < |w.db.rows| && w.db.rows[r].status.Queued?
    ensures Launches(w, v, r)
  {
    StartsQuietly(w, Dispatch);
    var w' := Next(w, Dispatch);
    assert w'.tasks[|w.tasks|] == MarkJobRunning;
    hide Good, Next, Launches, EndsNone, KeepsRollups;
    v := LaunchesByMark(w', |w.tasks|, r);
    LaunchesFirst(w, Dispatch, v, r);
  }

  lemma OpenWindowDispatches(w: World, q: nat)
    requires Good(w) && q < |w.db.rows| && w.db.rows[q].status.Queued? && w.job.open(q, w.now)
    ensures CanDispatch(w)
  {
    OpenParent(w, q);
    assert RowOk(w.db.rows[q]);
    assert QueuedDue(w.job, w.now, w.db.parent, w.job.open(q, w.now), w.db.rows[q]);
  }

  /** Some host is brought to the queue while its window is open, and all queued ones are dispatched. */
  lemma LaunchesByWindow(w: World, q: nat, t: int, r: nat) returns (v: World)
    requires Good(w) && w.job.open(q, t) && CanBeQueued(w, q, t)
    requires r < |w.db.rows| && w.db.rows[r].status.Queued?
    ensures Launches(w, v, r)
  {
    hide CanBeQueued, Next;
    var u := ReachesQueue(w, q, t);
    OpenWindowDispatches(u, q);
    v := LaunchesByDispatch(u, r);
    hide Good, Launched;
    LeadsOn(w, u, v);
  }

  /** A queued row that is not stuck is dispatched, with all others that are queued. */
  lemma LaunchesFree(w: World, r: nat) returns (v: World)
    requires Good(w) && r < |w.db.rows| && w.db.rows[r].status.Queued? && Untouched(w, r) && !StuckQueued(w, r)
    ensures Launches(w, v, r)
  {
    hide Good, Launches, CanBeQueued;
    if w.job.immediate {
      v := LaunchesByDispatch(w, r);
    } else if !NobodyFetches(w) {
      var i :| 0 <= i < |w.tasks| && (w.tasks[i].MarkJobRunning? || w.tasks[i].FetchQueued?);
      if w.tasks[i].FetchQueued? {
        v := LaunchesByFetch(w, i, r);
      } else {
        v := LaunchesByMark(w, i, r);
      }
    } else {
      var q: nat, t: int :| w.job.open(q, t) && CanBeQueued(w, q, t);
      v := LaunchesByWindow(w, q, t, r);
    }
  }

  // ---------------------------------------------------------------------------
  // Which hosts can end
  // ---------------------------------------------------------------------------

  predicate RowEnded(w: World, r: nat) {
    r < |w.db.rows| && w.db.rows[r].Terminal()
  }

  ghost predicate CanEnd(w: World, r: nat) {
    exists acts :: RowEnded(Run(w, acts), r)
  }

  lemma LeadsToRowEnd(w: World, v: World, r: nat)
    requires Leads(w, v) && RowEnded(v, r)
    ensures CanEnd(w, r)
  {
    var acts :| Steady(acts) && Run(w, acts) == v;
  }

  /** An open row that is not stuck fails in some continuation. */
  lemma EndsFree(w: World, r: nat) returns (v: World)
    requires Good(w) && OpenAt(w, r) && !Stuck(w, r)
    ensures Leads(w, v) && RowEnded(v, r)
  {
    if w.db.rows[r].status.Queued? && !Carried(w, r) {
      assert Untouched(w, r);
      hide Good, Touches, Carries, StuckQueued;
      var u := LaunchesFree(w, r);
      v := FailsOpen(u, r);
      LeadsOn(w, u, v);
    } else {
      hide Good, Touches, Carries;
      v := FailsOpen(w, r);
    }
  }

  lemma HostCanEnd(w: World, r: nat)
    requires Good(w) && r < |w.db.rows|
    ensures CanEnd(w, r) <==> !Stuck(w, r)
  {
    hide Good, Stuck, Next;
    if Stuck(w, r) {
      forall acts ensures !RowEnded(Run(w, acts), r) {
        StuckRun(w, acts, r);
        StuckInRange(w, r);
      }
    } else if w.db.rows[r].Terminal() {
      assert RowEnded(Run(w, []), r);
    } else {
      var v := EndsFree(w, r);
      LeadsToRowEnd(w, v, r);
    }
  }

  lemma InitialGood(job: Job, n: nat, now: int)
    requires n > 0
    ensures Good(Initial(job, n, now)) && forall r: nat :: !StuckRunning(Initial(job, n, now), r)
  {
    InitialOk(job, n, now);
  }

  /**
    From every reachable state, restarts included, some continuation ends a host,
    exactly unless it is stuck: running, not accepted by its agent, in nobody's hands
    and of a job that no timeout scan looks after; or queued, in nobody's hands, of a
    job that is not immediate, with nobody about to fetch its hosts and none of them
    able to be queued while its window is open.
  */
  lemma EveryHostCanEnd(job: Job, n: nat, now: int, acts: seq<Action>, r: nat)
    requires r < n
    ensures var w := Run(Initial(job, n, now), acts); CanEnd(w, r) <==> !Stuck(w, r)
  {
    hide Good, Stuck, CanEnd;
    InitialGood(job, n, now);
    GoodRun(Initial(job, n, now), acts);
    HostCanEnd(Run(Initial(job, n, now), acts), r);
  }
}
