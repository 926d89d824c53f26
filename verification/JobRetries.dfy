/**
  The retry budget. The failure handler reads a count and writes it back plus one,
  with anything in between; this is what the stored count still tells.
*/
module JobRetries {
  import opened Wrappers
  import opened JobRows
  import opened JobRollup
  import opened JobProtocol
  import opened JobSafety

  /** Even with stale reads the stored count never leaves 0..3. */
  lemma RetryCountBounded(job: Job, n: nat, now: int, acts: seq<Action>, r: nat)
    requires r < n
    ensures var rows := Run(Initial(job, n, now), acts).db.rows;
            |rows| == n && 0 <= rows[r].retryCount <= 3
  {
    InitialOk(job, n, now);
    RunOk(Initial(job, n, now), acts);
  }

  // ---------------------------------------------------------------------------
  // What one step does to the count
  // ---------------------------------------------------------------------------

  /** A failure handler of the row between its read and its write. */
  predicate MidFailure(t: Task, r: nat) {
    (t.WritePending? || t.WriteFailed?) && t.row == r
  }

  predicate Pends(t: Task, r: nat) {
    t.WritePending? && t.row == r
  }

  /** The step writes a retry to an open row. */
  predicate Lands(w: World, act: Action, r: nat) {
    act.Step? && act.task < |w.tasks| && Pends(w.tasks[act.task], r)
    && r < |w.db.rows| && !w.db.rows[r].Terminal()
  }

  /** By how much the step leaves the failures ahead of the count; it may also catch up. */
  function Gap(w: World, act: Action, r: nat): int {
    if Lands(w, act, r) then w.db.rows[r].retryCount + 1 - w.tasks[act.task].count else 0
  }

  predicate KeepsCount(before: HostRow, after: HostRow) {
    && (after.status.Succeeded? || after.retryCount == before.retryCount)
    && (before.Terminal() ==> after == before || Frozen(before, after))
  }

  predicate NotMid(t: Task) {
    !t.WritePending? && !t.WriteFailed?
  }

  /** Outside the failure handler no step touches the count of a row it leaves open. */
  predicate LeavesCounts(before: Db, e: Effect) {
    && (e.write.NoWrite? || e.write.Ended?)
    && NotMid(e.next)
    && (forall k :: 0 <= k < |e.spawned| ==> NotMid(e.spawned[k]))
    && |e.db.rows| == |before.rows|
    && forall r :: 0 <= r < |before.rows| ==> KeepsCount(before.rows[r], e.db.rows[r])
  }

  lemma DispatchLeavesCounts(now: int, db: Db, t: Task, a: Answer)
    requires TaskOk(t, db.rows) && RoleOf(t).Dispatching?
    ensures LeavesCounts(db, DispatchStep(now, db, t, a))
  {
  }

  lemma ScanLeavesCounts(now: int, db: Db, t: Task, a: Answer)
    requires TaskOk(t, db.rows) && RoleOf(t).Scanning?
    ensures LeavesCounts(db, ScanStep(now, db, t, a))
  {
    if t.rows != [] {
      assert t.rows[0] in t.rows;
    }
  }

  lemma PollLeavesCounts(job: Job, now: int, db: Db, t: Task, a: Answer)
    requires TaskOk(t, db.rows) && RoleOf(t).Polling?
    ensures LeavesCounts(db, PollStep(job, now, db, t, a))
  {
    hide ExecutorRollup;
  }

  lemma RelayLeavesCounts(now: int, db: Db, t: Task, a: Answer)
    requires TaskOk(t, db.rows) && RoleOf(t).Relaying?
    ensures LeavesCounts(db, RelayStep(now, db, t, a))
  {
    hide RelayRollup, OpenCount;
  }

  lemma OthersLeaveCounts(job: Job, now: int, db: Db, t: Task, a: Answer)
    requires TaskOk(t, db.rows) && !RoleOf(t).Failing?
    ensures LeavesCounts(db, Execute(job, now, db, t, a))
  {
    hide DispatchStep, ScanStep, PollStep, RelayStep;
    match RoleOf(t)
    case Dispatching => DispatchLeavesCounts(now, db, t, a);
    case Scanning => ScanLeavesCounts(now, db, t, a);
    case Polling => PollLeavesCounts(job, now, db, t, a);
    case Relaying => RelayLeavesCounts(now, db, t, a);
    case _ =>
  }

  /** What a step means for one row's count, its failures, and the handlers in flight. */
  predicate Counts(w: World, act: Action, r: nat)
    requires r < |w.db.rows| == |w.history|
  {
    var w' := Next(w, act);
    && |w'.db.rows| == |w'.history| == |w.db.rows|
    && var row, h, row', h' := w.db.rows[r], w.history[r], w'.db.rows[r], w'.history[r];
       && h.failures <= h'.failures <= h.failures + 1
       && (row.Terminal() ==> row'.Terminal() && row'.retryCount == row.retryCount && h'.failures == h.failures)
       && (if Lands(w, act, r) then
             !row'.Terminal() && row'.retryCount == w.tasks[act.task].count && h'.failures == h.failures + 1
           else
             && (row'.status.Succeeded? || row'.retryCount == row.retryCount)
             && (row'.status.Succeeded? ==> row'.retryCount <= row.retryCount && h'.failures == h.failures)
             && (h'.failures > h.failures ==>
                   row'.Terminal() && act.Step? && act.task < |w.tasks|
                   && w.tasks[act.task].WriteFailed? && w.tasks[act.task].row == r))
  }

  /** A handler in flight after a step was there before, or has just read the count. */
  predicate Handlers(w: World, act: Action, r: nat)
    requires r < |w.db.rows|
  {
    var w' := Next(w, act);
    && |w'.db.rows| == |w.db.rows|
    && forall j :: 0 <= j < |w'.tasks| && MidFailure(w'.tasks[j], r) ==>
         || (j < |w.tasks| && w'.tasks[j] == w.tasks[j] && (act.Step? ==> act.task != j))
         || (&& act.Step? && act.task == j && j < |w.tasks|
             && w.tasks[j].ReadRetry? && w.tasks[j].row == r && w'.db == w.db && w'.history == w.history
             && !w.db.rows[r].Terminal()
             && (if w.db.rows[r].retryCount < 3 then
                   w'.tasks[j].WritePending? && w'.tasks[j].count == w.db.rows[r].retryCount + 1
                 else w'.tasks[j].WriteFailed?))
  }

  lemma OtherTaskCounts(w: World, i: nat, a: Answer, r: nat)
    requires Inv(w) && i < |w.tasks| && !RoleOf(w.tasks[i]).Failing? && r < |w.db.rows|
    ensures Counts(w, Step(i, a), r) && Handlers(w, Step(i, a), r)
  {
    hide Execute, DbOk, Tracked, Overwritten;
    var t := w.tasks[i];
    assert TaskOk(t, w.db.rows);
    var e := Execute(w.job, w.now, w.db, t, Told(w, t, a));
    OthersLeaveCounts(w.job, w.now, w.db, t, Told(w, t, a));
    assert KeepsCount(w.db.rows[r], e.db.rows[r]);
    SucceededCount(w, i, a, r);
    hide Told;
  }

  /** Success sets the count back to zero. */
  lemma SucceededCount(w: World, i: nat, a: Answer, r: nat)
    requires Inv(w) && i < |w.tasks| && r < |w.db.rows|
    ensures var rows := StepTask(w, i, a).db.rows;
            |rows| == |w.db.rows| && (rows[r].status.Succeeded? ==> rows[r].retryCount <= w.db.rows[r].retryCount)
  {
    hide ExecutorRollup, RelayRollup, OpenCount, Recorded, Tracked, Overwritten;
    assert TaskOk(w.tasks[i], w.db.rows) && RowOk(w.db.rows[r]);
    if w.tasks[i].ResetRows? || w.tasks[i].FailRows? {
      assert w.tasks[i].rows != [] ==> w.tasks[i].rows[0] in w.tasks[i].rows;
    }
  }

  lemma FailureTaskCounts(w: World, i: nat, a: Answer, r: nat)
    requires Inv(w) && i < |w.tasks| && RoleOf(w.tasks[i]).Failing? && r < |w.db.rows|
    ensures Counts(w, Step(i, a), r) && Handlers(w, Step(i, a), r)
  {
    hide DbOk, ParentOk;
    assert TaskOk(w.tasks[i], w.db.rows);
  }

  lemma StepCounts(w: World, act: Action, r: nat)
    requires Inv(w) && r < |w.db.rows|
    ensures Counts(w, act, r) && Handlers(w, act, r)
  {
    hide StepTask, DbOk;
    if act.Step? && act.task < |w.tasks| {
      if RoleOf(w.tasks[act.task]).Failing? {
        FailureTaskCounts(w, act.task, act.answer, r);
      } else {
        OtherTaskCounts(w, act.task, act.answer, r);
      }
    }
  }

  // ---------------------------------------------------------------------------
  // The count over any run
  // ---------------------------------------------------------------------------

  /** The count is at most the failures, and once it is behind no handler in flight can catch up. */
  predicate BehindOk(w: World, r: nat) {
    && r < |w.db.rows| == |w.history|
    && var row, failures := w.db.rows[r], w.history[r].failures;
       && row.retryCount <= failures
       && forall i :: 0 <= i < |w.tasks| && Pends(w.tasks[i], r) && !row.Terminal() ==>
            w.tasks[i].count <= failures + 1 && (row.retryCount < failures ==> w.tasks[i].count <= failures)
  }

  lemma BehindStep(w: World, act: Action, r: nat)
    requires Inv(w) && BehindOk(w, r)
    ensures BehindOk(Next(w, act), r)
  {
    hide Next, Inv;
    StepCounts(w, act, r);
    var w' := Next(w, act);
    forall j | 0 <= j < |w'.tasks| && Pends(w'.tasks[j], r) && !w'.db.rows[r].Terminal()
      ensures w'.tasks[j].count <= w'.history[r].failures + 1
      ensures w'.db.rows[r].retryCount < w'.history[r].failures ==> w'.tasks[j].count <= w'.history[r].failures
    {
      assert MidFailure(w'.tasks[j], r);
    }
  }

  /** The sum of the gaps that the retries of a run opened or closed. */
  function Lost(w: World, acts: seq<Action>, r: nat): int
    decreases |acts|
  {
    if acts == [] then 0 else Gap(w, acts[0], r) + Lost(Next(w, acts[0]), acts[1..], r)
  }

  /** Every retry of the run counted on from the count it found. */
  predicate LosesNone(w: World, acts: seq<Action>, r: nat)
    decreases |acts|
  {
    acts == [] || (Gap(w, acts[0], r) == 0 && LosesNone(Next(w, acts[0]), acts[1..], r))
  }

  predicate IsOpen(w: World, r: nat) {
    r < |w.db.rows| == |w.history| && !w.db.rows[r].Terminal()
  }

  lemma {:induction false} LostRun(w: World, acts: seq<Action>, r: nat)
    requires Inv(w) && BehindOk(w, r)
    ensures var v := Run(w, acts);
            && BehindOk(v, r)
            && (IsOpen(v, r) ==>
                  && IsOpen(w, r)
                  && v.history[r].failures - v.db.rows[r].retryCount
                     == w.history[r].failures - w.db.rows[r].retryCount + Lost(w, acts, r)
                  && (v.history[r].failures == v.db.rows[r].retryCount
                      <==> w.history[r].failures == w.db.rows[r].retryCount && LosesNone(w, acts, r)))
    decreases |acts|
  {
    hide Next, Inv;
    if acts != [] {
      StepCounts(w, acts[0], r);
      BehindStep(w, acts[0], r);
      NextOk(w, acts[0]);
      LostRun(Next(w, acts[0]), acts[1..], r);
      GapOf(w, acts[0], r);
    }
  }

  /** Failures and count come apart exactly at a retry that did not count on, and never meet again. */
  lemma GapOf(w: World, act: Action, r: nat)
    requires BehindOk(w, r) && Counts(w, act, r)
    ensures var w' := Next(w, act);
            !w'.db.rows[r].Terminal() ==>
              && !w.db.rows[r].Terminal()
              && w'.history[r].failures - w'.db.rows[r].retryCount
                 == w.history[r].failures - w.db.rows[r].retryCount + Gap(w, act, r)
              && (w'.history[r].failures == w'.db.rows[r].retryCount
                  <==> w.history[r].failures == w.db.rows[r].retryCount && Gap(w, act, r) == 0)
  {
    hide Next;
  }

  /**
    Over any run: the count of a host never exceeds the failures that took effect.
    For a host that is still open they differ by what its retries lost, and they
    are equal exactly if every retry counted on from the count it found.
  */
  lemma CountTellsFailures(job: Job, n: nat, now: int, acts: seq<Action>, r: nat)
    requires r < n
    ensures var w := Run(Initial(job, n, now), acts);
            && |w.db.rows| == |w.history| == n
            && w.db.rows[r].retryCount <= w.history[r].failures
            && (!w.db.rows[r].Terminal() ==>
                  && w.history[r].failures == w.db.rows[r].retryCount + Lost(Initial(job, n, now), acts, r)
                  && (w.history[r].failures == w.db.rows[r].retryCount
                      <==> LosesNone(Initial(job, n, now), acts, r)))
  {
    InitialOk(job, n, now);
    LostRun(Initial(job, n, now), acts, r);
    RunOk(Initial(job, n, now), acts);
  }

  // ---------------------------------------------------------------------------
  // One handler at a time
  // ---------------------------------------------------------------------------

  /** No two failure handlers of the row are between read and write. */
  predicate OneHandler(w: World, r: nat) {
    forall i, j :: 0 <= i < j < |w.tasks| ==> !(MidFailure(w.tasks[i], r) && MidFailure(w.tasks[j], r))
  }

  predicate HandledAlone(w: World, acts: seq<Action>, r: nat)
    decreases |acts|
  {
    OneHandler(w, r) && (acts == [] || HandledAlone(Next(w, acts[0]), acts[1..], r))
  }

  predicate AloneOk(w: World, r: nat) {
    && r < |w.db.rows| == |w.history|
    && var row, failures := w.db.rows[r], w.history[r].failures;
       if row.Terminal() then failures <= 4
       else
         && failures == row.retryCount
         && forall i :: 0 <= i < |w.tasks| && MidFailure(w.tasks[i], r) ==>
              if w.tasks[i].WritePending? then w.tasks[i].count == row.retryCount + 1 else row.retryCount == 3
  }

  lemma AloneStep(w: World, act: Action, r: nat)
    requires Inv(w) && AloneOk(w, r) && OneHandler(w, r)
    ensures AloneOk(Next(w, act), r) && Gap(w, act, r) == 0
    ensures var row := Next(w, act).db.rows[r];
            row.status.Succeeded? || w.db.rows[r].retryCount <= row.retryCount
  {
    StepCounts(w, act, r);
    assert RowOk(w.db.rows[r]);
    hide Next, Inv;
    var w' := Next(w, act);
    assert Lands(w, act, r) ==> MidFailure(w.tasks[act.task], r);
    forall j | 0 <= j < |w'.tasks| && MidFailure(w'.tasks[j], r) && !w'.db.rows[r].Terminal()
      ensures if w'.tasks[j].WritePending? then w'.tasks[j].count == w'.db.rows[r].retryCount + 1
              else w'.db.rows[r].retryCount == 3
    {
    }
  }

  lemma {:induction false} AloneRun(w: World, acts: seq<Action>, r: nat)
    requires Inv(w) && AloneOk(w, r) && HandledAlone(w, acts, r)
    ensures Inv(Run(w, acts)) && AloneOk(Run(w, acts), r) && OneHandler(Run(w, acts), r)
    ensures LosesNone(w, acts, r)
    decreases |acts|
  {
    hide Next, Inv, AloneOk, OneHandler;
    if acts != [] {
      NextOk(w, acts[0]);
      AloneStep(w, acts[0], r);
      AloneRun(Next(w, acts[0]), acts[1..], r);
    }
  }

  /**
    If no two failure handlers of a host are ever between read and write together:
    at most four failures take effect on it, while it is open all of them are
    counted, and no step takes its count down unless the host succeeds.
  */
  lemma FourFailuresAtMost(job: Job, n: nat, now: int, acts: seq<Action>, act: Action, r: nat)
    requires r < n
    ensures var w := Run(Initial(job, n, now), acts);
            var after := Next(w, act).db.rows;
            && |w.db.rows| == |w.history| == |after| == n
            && (HandledAlone(Initial(job, n, now), acts, r) ==>
                  && w.history[r].failures <= 4
                  && (!w.db.rows[r].Terminal() ==> w.history[r].failures == w.db.rows[r].retryCount <= 3)
                  && (after[r].status.Succeeded? || w.db.rows[r].retryCount <= after[r].retryCount))
  {
    var w := Run(Initial(job, n, now), acts);
    InitialOk(job, n, now);
    RunOk(Initial(job, n, now), acts);
    StepCounts(w, act, r);
    assert RowOk(w.db.rows[r]);
    if HandledAlone(Initial(job, n, now), acts, r) {
      AloneRun(Initial(job, n, now), acts, r);
      AloneStep(w, act, r);
    }
  }
}
