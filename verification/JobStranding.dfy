/** When a host can get stuck at all: by restarts of the worker, and by windows that are over. */
module JobStranding {
  import opened Wrappers
  import opened JobRows
  import opened JobRollup
  import opened JobProtocol
  import opened JobSafety
  import opened JobProgress
  import opened JobHands
  import opened JobWindows
  import opened JobLiveness
  import opened JobOutcome

  // ---------------------------------------------------------------------------
  // Without a restart
  // ---------------------------------------------------------------------------

  /** Every host is queued, and no task in flight has anything to do with any. */
  predicate NotStarted(w: World) {
    forall r :: 0 <= r < |w.db.rows| ==> w.db.rows[r].status.Queued? && Untouched(w, r)
  }

  /** The job has not started, or all its queued hosts are in somebody's hands. */
  predicate Orderly(w: World) {
    NotStarted(w) || Launched(w)
  }

  lemma NotStartedTask(w: World, i: nat, a: Answer)
    requires Good(w) && NotStarted(w) && i < |w.tasks|
    ensures Orderly(Next(w, Step(i, a)))
  {
    var w' := Next(w, Step(i, a));
    GoodStep(w, Step(i, a));
    GoodMeans(w);
    StepTaskOk(w, i, a);
    if w.tasks[i].FetchQueued? {
      FetchHands(w, i, a);
    } else {
      forall r | 0 <= r < |w'.db.rows| ensures w'.db.rows[r].status.Queued? && Untouched(w', r) {
        StaysUntouched(w, i, a, r);
      }
    }
  }

  lemma FetchHands(w: World, i: nat, a: Answer)
    requires Good(w) && i < |w.tasks| && w.tasks[i].FetchQueued?
    ensures Launched(Next(w, Step(i, a)))
  {
    var v := Next(w, Step(i, a));
    assert v.db == w.db && v.tasks == w.tasks[i := Done] + QueuedHosts(w.db.rows);
    hide Good, Next, Execute, QueuedHosts, Carries;
    forall q | 0 <= q < |v.db.rows| && v.db.rows[q].status.Queued? ensures Carried(v, q) {
      FetchedAreCarried(w.tasks[i := Done], w.db.rows, q);
    }
  }

  lemma StaysUntouched(w: World, i: nat, a: Answer, r: nat)
    requires Good(w) && i < |w.tasks| && !w.tasks[i].FetchQueued? && r < |w.db.rows| && Untouched(w, r)
    ensures var w' := Next(w, Step(i, a));
            |w'.db.rows| == |w.db.rows| && w'.db.rows[r] == w.db.rows[r] && Untouched(w', r)
  {
    hide Execute, Recorded, Noticed, Tracked, Overwritten, Touches, Serves, DbOk, Told;
    assert TaskOk(w.tasks[i], w.db.rows);
    TaskPassesOn(w, i, a, r);
  }

  lemma OrderlyStep(w: World, act: Action)
    requires Good(w) && Orderly(w) && !act.Restart?
    ensures Orderly(Next(w, act))
  {
    hide Inv, Known, Sound, InHand, StepTask, Touches, CanDispatch;
    if Launched(w) {
      InHandStep(w, act);
    } else if act.Step? {
      if act.task < |w.tasks| {
        NotStartedTask(w, act.task, act.answer);
      }
    } else {
      var w' := Next(w, act);
      forall r, j | 0 <= r < |w'.db.rows| && 0 <= j < |w'.tasks| ensures !Touches(w'.tasks[j], r) {
        assert w.db.rows[r].status.Queued? && Untouched(w, r);
        if j < |w.tasks| {
          assert w'.tasks[j] == w.tasks[j];
        } else {
          StartsUntouched(w, act, r, j);
        }
      }
    }
  }

  lemma {:induction false} OrderlyRun(w: World, acts: seq<Action>)
    requires Good(w) && Orderly(w) && Steady(acts)
    ensures Orderly(Run(w, acts))
    decreases |acts|
  {
    hide Next, Good, Orderly;
    if acts != [] {
      GoodStep(w, acts[0]);
      OrderlyStep(w, acts[0]);
      OrderlyRun(Next(w, acts[0]), acts[1..]);
    }
  }

  /** From some time on no host of the job has an open window. */
  ghost predicate WindowsOver(job: Job, n: nat, from: int) {
    forall q: nat, t: int :: q < n && from <= t ==> !job.open(q, t)
  }

  lemma NotStartedStuck(w: World, r: nat)
    requires NotStarted(w) && StuckQueued(w, r)
    ensures WindowsOver(w.job, |w.db.rows|, w.now)
  {
    forall q: nat, t: int | q < |w.db.rows| && w.now <= t ensures !w.job.open(q, t) {
      assert CanBeQueued(w, q, t);
    }
  }

  lemma LaunchedIsNotStuck(w: World, r: nat)
    requires Launched(w)
    ensures !StuckQueued(w, r)
  {
    if r < |w.db.rows| && w.db.rows[r].status.Queued? {
      var i :| 0 <= i < |w.tasks| && Carries(w.tasks[i], r);
      assert Touches(w.tasks[i], r);
    }
  }

  /** Waiting until all windows are over leaves every host stuck. */
  lemma WaitsTooLong(job: Job, n: nat, now: int, from: int)
    requires n > 0 && !job.immediate && WindowsOver(job, n, from)
    ensures exists acts :: Steady(acts) && forall r: nat :: r < n ==> Stuck(Run(Initial(job, n, now), acts), r)
  {
    var w := Initial(job, n, now);
    var wait := if from > now then from - now else 0;
    var v := Next(w, Tick(wait));
    forall q: nat, t: int | v.job.open(q, t) ensures !CanBeQueued(v, q, t) {
    }
    assert forall r: nat :: r < n ==> StuckQueued(v, r);
    hide Next, StuckQueued;
    LeadsNowhere(w);
    LeadsNext(w, w, Tick(wait));
    var acts :| Steady(acts) && Run(w, acts) == v;
  }

  /**
    Without a restart a host can get stuck exactly if the job is not immediate and the
    windows of all its hosts are over some time.
  */
  lemma SteadyRunsCanStrand(job: Job, n: nat, now: int, r: nat)
    requires r < n
    ensures (exists acts :: Steady(acts) && Stuck(Run(Initial(job, n, now), acts), r))
            <==> !job.immediate && exists from: int :: WindowsOver(job, n, from)
  {
    hide Next;
    var w := Initial(job, n, now);
    InitialGood(job, n, now);
    if acts :| Steady(acts) && Stuck(Run(w, acts), r) {
      assert NotStarted(w);
      GoodRun(w, acts);
      OrderlyRun(w, acts);
      FreeRun(w, acts, r);
      var v := Run(w, acts);
      if Launched(v) {
        LaunchedIsNotStuck(v, r);
      } else {
        NotStartedStuck(v, r);
      }
    }
    if from: int :| !job.immediate && WindowsOver(job, n, from) {
      WaitsTooLong(job, n, now, from);
    }
  }

  // ---------------------------------------------------------------------------
  // With restarts
  // ---------------------------------------------------------------------------

  ghost predicate OpensFrom(job: Job, r: nat, from: int) {
    exists t: int :: from <= t && job.open(r, t)
  }

  /** The host's own window opens again and again. */
  ghost predicate OpensForever(job: Job, r: nat) {
    forall from: int :: OpensFrom(job, r, from)
  }

  /** What a stuck host tells of its job. */
  lemma StuckTells(w: World, r: nat)
    requires Stuck(w, r)
    ensures !HasTimeout(w.job) || (!w.job.immediate && !OpensForever(w.job, r))
  {
    if StuckQueued(w, r) {
      forall t: int | w.now <= t ensures !w.job.open(r, t) {
        assert CanBeQueued(w, r, t);
      }
      assert !OpensFrom(w.job, r, w.now);
    }
  }

  /** A restart right after a fresh row was marked running leaves it stuck. */
  lemma RestartedRunning(w: World, r: nat)
    requires r < |w.db.rows| && Unaccepted(w.db.rows[r]) && !HasTimeout(w.job)
    ensures Stuck(w.(tasks := [], relays := {}), r)
  {
  }

  /** A dispatch up to its write of `running`, and then a restart. */
  lemma StrandsRunning(job: Job, n: nat, now: int, r: nat)
    requires r < n && Startable(job, n, now) && !HasTimeout(job)
    ensures exists acts :: Stuck(Run(Initial(job, n, now), acts), r)
  {
    hide Next, Good, CanDispatch, QueuedHosts, Stuck, Startable, Leads;
    var w0 := Initial(job, n, now);
    var w, i := FirstFetch(job, n, now, r);
    Starts(w, i, r);
    var v := w.(db := WriteRow(w.db, r, w.db.rows[r].MarkRunning(w.now)), tasks := w.tasks[i := CallAgent(r)]);
    LeadsOn(w0, w, v);
    RestartedRunning(v, r);
    RestartAfter(w0, v);
    var acts :| Run(w0, acts) == v.(tasks := [], relays := {});
  }

  /** All other hosts end, this one waits in the queue until its windows are over, and then the worker is restarted. */
  lemma StrandsQueued(job: Job, n: nat, now: int, r: nat, from: int)
    requires r < n && Startable(job, n, now) && !job.immediate
    requires !OpensFrom(job, r, from)
    ensures exists acts :: Stuck(Run(Initial(job, n, now), acts), r)
  {
    hide Next, Good, Launched, StuckRunning, CanBeQueued;
    var w0 := Initial(job, n, now);
    var w := FirstLaunch(job, n, now, r);
    assert !w.db.rows[r].Terminal();
    var u := FailsUpTo(w, n, r);
    LeadsOn(w0, w, u);
    var wait := Tick(if from > u.now then from - u.now else 0);
    LeadsNext(w0, u, wait);
    TickMeans(u, wait.seconds);
    RestartAfter(w0, Next(u, wait));
    var acts :| Run(w0, acts) == Next(u, wait).(tasks := [], relays := {});
    var v := Run(w0, acts);
    forall q: nat, t: int | CanBeQueued(v, q, t) ensures !v.job.open(q, t) {
      OnlyOpenQueues(v, q, t);
    }
    assert StuckQueued(v, r);
  }

  lemma TickMeans(w: World, seconds: nat)
    ensures Next(w, Tick(seconds)) == w.(now := w.now + seconds)
  {
  }

  lemma OnlyOpenQueues(w: World, q: nat, t: int)
    requires CanBeQueued(w, q, t)
    ensures q < |w.db.rows| && !w.db.rows[q].Terminal() && w.now <= t
  {
  }

  /**
    Some run, with restarts as they may come, strands a host exactly if no timeout scan
    looks after the job, or the job is not immediate and the host's own windows are
    over some time.
  */
  lemma RestartsCanStrand(job: Job, n: nat, now: int, r: nat)
    requires r < n
    ensures (exists acts :: Stuck(Run(Initial(job, n, now), acts), r))
            <==> !HasTimeout(job) || (!job.immediate && !OpensForever(job, r))
  {
    hide Next, Good, Stuck, Startable;
    var w0 := Initial(job, n, now);
    InitialGood(job, n, now);
    if !Startable(job, n, now) {
      StartableIsFree(job, n, now);
      assert Stuck(Run(w0, []), r);
    } else if !HasTimeout(job) {
      StrandsRunning(job, n, now, r);
    } else if !job.immediate && !OpensForever(job, r) {
      var from: int :| !OpensFrom(job, r, from);
      StrandsQueued(job, n, now, r, from);
    }
    if acts :| Stuck(Run(w0, acts), r) {
      GoodRun(w0, acts);
      StuckTells(Run(w0, acts), r);
    }
  }
}
