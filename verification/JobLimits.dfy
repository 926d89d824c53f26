/**
  Runs that show what the job protocol does not guarantee, for every job that can start.
  In each every answer of the outside world is ordinary, and the worker is not restarted.
*/
module JobLimits {
  import opened Wrappers
  import opened JobRows
  import opened JobRollup
  import opened JobProtocol
  import opened JobSafety
  import opened JobProgress
  import opened JobRetries
  import opened JobHands
  import opened JobWindows
  import opened JobLiveness
  import opened JobOutcome

  // ---------------------------------------------------------------------------
  // Failures and their count
  // ---------------------------------------------------------------------------

  /** A failure handler that has read the count of the first row. */
  predicate HasReadCount(t: Task, count: int) {
    t.WritePending? && t.row == 0 && t.count == count
  }

  /** The first row is open; so many retries are counted, so many failures took effect. */
  predicate Standing(w: World, count: int, failures: nat) {
    |w.db.rows| == |w.history| > 0 && !w.db.rows[0].Terminal()
    && w.db.rows[0].retryCount == count && w.history[0].failures == failures
  }

  predicate OthersKept(w: World, v: World, i: nat) {
    |w.tasks| <= |v.tasks| && forall j :: 0 <= j < |w.tasks| && j != i ==> v.tasks[j] == w.tasks[j]
  }

  /** A dispatch fails, and its failure handler reads the count. */
  lemma ReadsCount(w: World, i: nat, count: int, failures: nat) returns (v: World)
    requires Standing(w, count, failures) && count < 3 && i < |w.tasks| && w.tasks[i] == FetchHost(0)
    ensures Leads(w, v) && Standing(v, count, failures) && OthersKept(w, v, i) && |w.tasks| <= |v.tasks|
    ensures v == w.(tasks := v.tasks)
    ensures HasReadCount(v.tasks[i], count + 1)
  {
    hide Next, Leads;
    var read := ReadRetry(0, Raw(""));
    Moves(w, i, BAD, read);
    var u := w.(tasks := w.tasks[i := read]);
    var write := Execute(u.job, u.now, u.db, read, BAD).next;
    Moves(u, i, BAD, write);
    v := u.(tasks := u.tasks[i := write]);
    LeadsOn(w, u, v);
  }

  /** A failure handler writes the count it has read plus one. */
  lemma WritesCount(w: World, i: nat, count: int, failures: nat) returns (v: World)
    requires Standing(w, count, failures) && i < |w.tasks| && w.tasks[i].WritePending? && w.tasks[i].row == 0
    ensures Leads(w, v) && Standing(v, w.tasks[i].count, failures + 1) && OthersKept(w, v, i)
  {
    v := Next(w, Step(i, BAD));
    assert Standing(v, w.tasks[i].count, failures + 1) && OthersKept(w, v, i);
    hide Next;
    LeadsNowhere(v);
    LeadsFirst(w, Step(i, BAD), v);
  }

  /** Nothing has been counted, the first row is queued, and the job can be dispatched. */
  predicate Dispatchable(w: World) {
    Standing(w, 0, 0) && w.db.rows[0].status.Queued? && CanDispatch(w)
  }

  /** One more dispatch of the first row, while it is queued. */
  lemma DispatchesAgain(w: World) returns (v: World, i: nat)
    requires Dispatchable(w)
    ensures Leads(w, v) && Dispatchable(v) && OthersKept(w, v, i)
    ensures |w.tasks| <= i < |v.tasks| && v.tasks[i] == FetchHost(0)
  {
    v, i := Dispatches(w, 0);
    if !w.job.immediate {
      var q :| 0 <= q < |w.db.rows| && QueuedDue(w.job, w.now, w.db.parent, w.job.open(q, w.now), w.db.rows[q]);
      assert QueuedDue(v.job, v.now, v.db.parent, v.job.open(q, v.now), v.db.rows[q]);
    }
  }

  /** A handler that has read leaves the job as it is. */
  lemma StaysDispatchable(w: World, v: World)
    requires Dispatchable(w) && v == w.(tasks := v.tasks)
    ensures Dispatchable(v)
  {
    if !w.job.immediate {
      var q :| 0 <= q < |w.db.rows| && QueuedDue(w.job, w.now, w.db.parent, w.job.open(q, w.now), w.db.rows[q]);
      assert QueuedDue(v.job, v.now, v.db.parent, v.job.open(q, v.now), v.db.rows[q]);
    }
  }

  /** The job as it is when it can first be dispatched. */
  lemma FirstDispatchable(job: Job, n: nat, now: int) returns (w: World)
    requires n > 0 && Startable(job, n, now)
    ensures Leads(Initial(job, n, now), w) && Dispatchable(w) && Standing(w, 0, 0)
  {
    var t := FirstDispatch(job, n, now);
    w := Initial(job, n, t);
  }

  /**
    Two dispatches of one queued row fail at the same time. Both failure handlers
    read a count of zero and both write one: two failures, one retry counted.
  */
  lemma FailureCountCanBeLost(job: Job, n: nat, now: int)
    requires n > 0 && Startable(job, n, now)
    ensures exists acts :: Steady(acts) && Standing(Run(Initial(job, n, now), acts), 1, 2)
  {
    hide Leads, Dispatchable, OthersKept;
    var w0 := Initial(job, n, now);
    var start := FirstDispatchable(job, n, now);
    var w1, i := DispatchesAgain(start);
    LeadsOn(w0, start, w1);
    var w2, j := DispatchesAgain(w1);
    LeadsOn(w0, w1, w2);
    KeptAt(w1, w2, j, i);
    StandsAtFirst(w2);
    hide Standing;
    var w3 := ReadsCount(w2, i, 0, 0);
    LeadsOn(w0, w2, w3);
    KeptAt(w2, w3, i, j);
    var w4 := ReadsCount(w3, j, 0, 0);
    LeadsOn(w0, w3, w4);
    KeptAt(w3, w4, j, i);
    var w5 := WritesCount(w4, i, 0, 0);
    LeadsOn(w0, w4, w5);
    KeptAt(w4, w5, i, j);
    var w6 := WritesCount(w5, j, 1, 1);
    LeadsOn(w0, w5, w6);
    RunOf(w0, w6);
  }

  lemma RunOf(w: World, v: World)
    requires Leads(w, v)
    ensures exists acts :: Steady(acts) && Run(w, acts) == v
  {
  }

  lemma StandsAtFirst(w: World)
    requires Dispatchable(w)
    ensures Standing(w, 0, 0)
  {
  }

  lemma KeptAt(w: World, v: World, i: nat, j: nat)
    requires OthersKept(w, v, i) && j < |w.tasks| && j != i
    ensures j < |v.tasks| && v.tasks[j] == w.tasks[j]
  {
  }

  /**
    The count can also catch up: a late handler takes it down from two to one, and
    one that had read two before then takes it to three.
  */
  lemma CountCanCatchUp(job: Job, n: nat, now: int)
    requires n > 0 && Startable(job, n, now)
    ensures exists acts, i, a :: Steady(acts) && Gap(Run(Initial(job, n, now), acts), Step(i, a), 0) == -1
  {
    hide Leads, Standing, OthersKept, Dispatchable;
    var w0 := Initial(job, n, now);
    var start := FirstDispatchable(job, n, now);
    var w1, late, third := TwoCounted(start);
    LeadsOn(w0, start, w1);
    var w2 := ReadsCount(w1, third, 2, 2);
    LeadsOn(w0, w1, w2);
    KeptAt(w1, w2, third, late);
    var w3 := WritesCount(w2, late, 2, 2);
    LeadsOn(w0, w2, w3);
    KeptAt(w2, w3, late, third);
    RunOf(w0, w3);
    GapIs(w3, third);
  }

  /** Two failures are counted, an early handler has yet to write, and another dispatch is to fail. */
  lemma TwoCounted(w0: World) returns (w: World, late: nat, third: nat)
    requires Dispatchable(w0)
    ensures Leads(w0, w) && Standing(w, 2, 2) && late != third && late < |w.tasks| && third < |w.tasks|
    ensures HasReadCount(w.tasks[late], 1) && w.tasks[third] == FetchHost(0)
  {
    hide Leads, Standing, OthersKept, Dispatchable;
    var w1, first;
    w1, late, first, third := ThreeDispatched(w0);
    var w2, second := DispatchesAgain(w1);
    LeadsOn(w0, w1, w2);
    KeptAt(w1, w2, second, late);
    KeptAt(w1, w2, second, first);
    KeptAt(w1, w2, second, third);
    StandsAtFirst(w2);
    var w3 := ReadsCount(w2, late, 0, 0);
    LeadsOn(w0, w2, w3);
    KeptAt(w2, w3, late, first);
    KeptAt(w2, w3, late, second);
    KeptAt(w2, w3, late, third);
    var w4 := FailsOnce(w3, first, 0, 0);
    LeadsOn(w0, w3, w4);
    KeptAt(w3, w4, first, late);
    KeptAt(w3, w4, first, second);
    KeptAt(w3, w4, first, third);
    w := FailsOnce(w4, second, 1, 1);
    LeadsOn(w0, w4, w);
    KeptAt(w4, w, second, late);
    KeptAt(w4, w, second, third);
  }

  lemma GapIs(w: World, i: nat)
    requires Standing(w, 1, 3) && i < |w.tasks| && HasReadCount(w.tasks[i], 3)
    ensures Gap(w, Step(i, BAD), 0) == -1
  {
  }

  lemma ThreeDispatched(w0: World) returns (w: World, i: nat, j: nat, k: nat)
    requires Dispatchable(w0)
    ensures Leads(w0, w) && Dispatchable(w)
    ensures i < j < k < |w.tasks|
    ensures w.tasks[i] == FetchHost(0) && w.tasks[j] == FetchHost(0) && w.tasks[k] == FetchHost(0)
  {
    hide Leads, OthersKept, Dispatchable;
    var w1, w2;
    w1, i := DispatchesAgain(w0);
    w2, j := DispatchesAgain(w1);
    LeadsOn(w0, w1, w2);
    KeptAt(w1, w2, j, i);
    w, k := DispatchesAgain(w2);
    LeadsOn(w0, w2, w);
    KeptAt(w2, w, k, i);
    KeptAt(w2, w, k, j);
  }

  /** A failure handled with nothing in between. */
  lemma FailsOnce(w: World, i: nat, count: int, failures: nat) returns (v: World)
    requires Standing(w, count, failures) && count < 3 && i < |w.tasks| && w.tasks[i] == FetchHost(0)
    ensures Leads(w, v) && Standing(v, count + 1, failures + 1) && OthersKept(w, v, i)
  {
    hide Leads;
    var u := ReadsCount(w, i, count, failures);
    v := WritesCount(u, i, count, failures);
    LeadsOn(w, u, v);
  }

  /** Failure handlers at different places that all have read a count of zero. */
  predicate Handlers(w: World, places: seq<nat>) {
    && (forall k :: 0 <= k < |places| ==> places[k] < |w.tasks| && HasReadCount(w.tasks[places[k]], 1))
    && forall k, l :: 0 <= k < l < |places| ==> places[k] != places[l]
  }

  lemma {:induction false} ManyRead(w0: World, m: nat) returns (w: World, places: seq<nat>)
    requires Dispatchable(w0)
    ensures Leads(w0, w) && Dispatchable(w)
    ensures |places| == m && Handlers(w, places)
  {
    hide Leads, HasReadCount, CanDispatch;
    if m == 0 {
      w, places := w0, [];
      LeadsNowhere(w0);
    } else {
      var w1, before := ManyRead(w0, m - 1);
      var w2, i := DispatchesAgain(w1);
      LeadsOn(w0, w1, w2);
      w := ReadsCount(w2, i, 0, 0);
      StaysDispatchable(w2, w);
      LeadsOn(w0, w2, w);
      places := before + [i];
    }
  }

  lemma {:induction false} AllWrite(w: World, places: seq<nat>, count: int, failures: nat)
    returns (v: World, last: int)
    requires Standing(w, count, failures) && Handlers(w, places)
    ensures Leads(w, v) && Standing(v, last, failures + |places|)
    decreases |places|
  {
    hide Leads;
    if places == [] {
      v, last := w, count;
      LeadsNowhere(w);
    } else {
      var u := WritesCount(w, places[0], count, failures);
      v, last := AllWrite(u, places[1..], 1, failures + 1);
      LeadsOn(w, u, v);
    }
  }

  /** With several handlers at once there is no bound: a host can fail any number of times and stay open. */
  lemma FailuresAreUnbounded(job: Job, n: nat, now: int, m: nat)
    requires n > 0 && Startable(job, n, now)
    ensures exists acts, count :: Steady(acts) && Standing(Run(Initial(job, n, now), acts), count, m)
  {
    hide Leads, Dispatchable, CanDispatch;
    var w0 := Initial(job, n, now);
    var start := FirstDispatchable(job, n, now);
    var w, places := ManyRead(start, m);
    LeadsOn(w0, start, w);
    StandsAtFirst(w);
    hide Standing;
    var v, last := AllWrite(w, places, 0, 0);
    LeadsOn(w0, w, v);
    RunOf(w0, v);
  }

  // ---------------------------------------------------------------------------
  // Some hosts cancelled, the others succeeded
  // ---------------------------------------------------------------------------

  /** A row that the agent has accepted. */
  function Busy(now: int): HostRow {
    FreshRow.(status := Running, startedAt := Some(now), agentJobId := Some(FINE.text))
  }

  /** What is left of the one dispatch: for each host from `k` on, one task to run it. */
  predicate ToRun(tasks: seq<Task>, k: nat, n: nat) {
    && (forall i :: 0 <= i < |tasks| ==> tasks[i].Done? || (tasks[i].FetchHost? && k <= tasks[i].row < n))
    && (forall i, j :: 0 <= i < j < |tasks| && tasks[i].FetchHost? ==> tasks[j] != tasks[i])
    && forall q: nat :: k <= q < n ==> FetchHost(q) in tasks
  }

  /** The first `k` hosts have ended, the first by cancellation and the rest by success. */
  predicate Mixed(w: World, k: nat) {
    && 0 < k <= |w.db.rows| == |w.history|
    && w.db.rows[0].status.Cancelled?
    && (forall q :: 0 < q < k ==> w.db.rows[q].status.Succeeded?)
    && (forall q :: k <= q < |w.db.rows| ==> w.db.rows[q] == FreshRow)
    && ToRun(w.tasks, k, |w.db.rows|)
    && w.db.parent.status.Running? && w.relays == {} && !w.overwritten
  }

  /** The tasks after the one for host `k` is done, with perhaps one more that is done too. */
  lemma RunOne(tasks: seq<Task>, k: nat, n: nat) returns (i: nat)
    requires ToRun(tasks, k, n) && k < n
    ensures i < |tasks| && tasks[i] == FetchHost(k)
    ensures ToRun(tasks[i := Done], k + 1, n)
  {
    assert FetchHost(k) in tasks;
    i :| i < |tasks| && tasks[i] == FetchHost(k);
    var after := tasks[i := Done];
    forall q: nat | k + 1 <= q < n ensures FetchHost(q) in after {
      assert FetchHost(q) in tasks;
      var j :| 0 <= j < |tasks| && tasks[j] == FetchHost(q);
      assert after[j] == FetchHost(q);
    }
  }

  lemma MoreDone(tasks: seq<Task>, k: nat, n: nat, m: nat)
    requires ToRun(tasks, k, n)
    ensures ToRun(tasks + seq(m, _ => Done), k, n)
  {
    var more := tasks + seq(m, _ => Done);
    forall q: nat | k <= q < n ensures FetchHost(q) in more {
      assert FetchHost(q) in tasks;
    }
  }

  /** The whole of `execute_host_job`, undisturbed and accepted by the agent. */
  lemma Accepts(w: World, i: nat, r: nat)
    requires i < |w.tasks| && w.tasks[i] == FetchHost(r) && r < |w.db.rows| && w.db.rows[r] == FreshRow
    ensures Leads(w, w.(db := WriteRow(w.db, r, Busy(w.now)), tasks := w.tasks[i := Done]))
  {
    hide Leads, Next;
    var started := FreshRow.MarkRunning(w.now);
    Starts(w, i, r);
    var w1 := w.(db := WriteRow(w.db, r, started), tasks := w.tasks[i := CallAgent(r)]);
    Moves(w1, i, FINE, WriteAgentJob(r, FINE.text));
    var w2 := w1.(tasks := w1.tasks[i := WriteAgentJob(r, FINE.text)]);
    LeadsOn(w, w1, w2);
    AcceptStep(w2, i, r);
    LeadsNext(w, w2, Step(i, FINE));
    assert w2.db.rows[r := Busy(w.now)] == w.db.rows[r := Busy(w.now)];
    assert w2.tasks[i := Done] == w.tasks[i := Done];
  }

  lemma AcceptStep(w: World, i: nat, r: nat)
    requires i < |w.tasks| && w.tasks[i] == WriteAgentJob(r, FINE.text) && r < |w.db.rows|
    ensures Next(w, Step(i, FINE))
            == w.(db := WriteRow(w.db, r, w.db.rows[r].StoreAgentJob(FINE.text)), tasks := w.tasks[i := Done])
  {
  }

  /** The row is the only one that the agent has accepted and that runs. */
  predicate OnlyBusy(w: World, r: nat) {
    && r < |w.db.rows| == |w.history| && Pollable(w.db.rows[r])
    && (forall q :: 0 <= q < |w.db.rows| && q != r ==> !Pollable(w.db.rows[q]))
    && w.db.parent.status.Running? && w.relays == {} && !w.overwritten
  }

  /** The row has ended so, all else about the tables is as before, and the added tasks are done. */
  predicate EndedSo(w: World, v: World, r: nat, status: Status, added: nat) {
    && |v.db.rows| == |w.db.rows| == |v.history| && r < |w.db.rows| && v.db.rows[r].status == status
    && (forall q :: 0 <= q < |w.db.rows| && q != r ==> v.db.rows[q] == w.db.rows[q])
    && v.db.parent.status.Running? && v.relays == {} && !v.overwritten
    && v.tasks == w.tasks + seq(added, _ => Done)
  }

  predicate Rises(s: seq<nat>, i: nat, j: nat) {
    i < j < |s| ==> s[i] < s[j]
  }

  predicate IsAt(s: seq<nat>, k: nat, r: nat) {
    k < |s| ==> s[k] == r
  }

  lemma JustOne(s: seq<nat>, r: nat)
    requires r in s && (forall k: nat :: IsAt(s, k, r)) && forall i: nat, j: nat :: Rises(s, i, j)
    ensures s == [r]
  {
    assert IsAt(s, 0, r) && IsAt(s, 1, r) && Rises(s, 0, 1);
  }

  function RowsOf(polls: seq<Task>): (rows: seq<nat>)
    requires forall k :: 0 <= k < |polls| ==> polls[k].PollAgent?
    ensures |rows| == |polls| && forall k :: 0 <= k < |rows| ==> rows[k] == polls[k].row
  {
    seq(|polls|, k requires 0 <= k < |polls| => polls[k].row)
  }

  lemma OnePoll(w: World, r: nat)
    requires OnlyBusy(w, r)
    ensures Next(w, ScanRunning) == w.(tasks := w.tasks + [PollAgent(r)])
  {
    var polls := Polls(w.db.rows);
    assert PollAgent(r) in polls;
    var rows := RowsOf(polls);
    var k :| 0 <= k < |polls| && polls[k] == PollAgent(r);
    assert rows[k] == r;
    JustOne(rows, r);
    assert polls == [PollAgent(r)];
  }

  /** What the executor rolls up after the row: nothing, or that the job runs. */
  predicate RollsUpQuietly(rows: seq<HostRow>) {
    ExecutorRollup(Statuses(rows)) == if AllTerminal(rows) then None else Some(Running)
  }

  /** A poll that ends its row with success. */
  lemma Succeeds(w: World, r: nat) returns (v: World)
    requires OnlyBusy(w, r)
    requires forall row: HostRow :: row.status.Succeeded? ==> RollsUpQuietly(w.db.rows[r := row])
    ensures Leads(w, v) && EndedSo(w, v, r, Succeeded, 1)
  {
    hide Leads, Next, ExecutorRollup, RollsUpQuietly;
    var k := |w.tasks|;
    LeadsNowhere(w);
    LeadsNext(w, w, ScanRunning);
    OnePoll(w, r);
    var w1 := w.(tasks := w.tasks + [PollAgent(r)]);
    var next := Polled(w.job, r, FINE);
    Moves(w1, k, FINE, next);
    var w2 := w.(tasks := w.tasks + [next]);
    assert w1.tasks[k := next] == w2.tasks;
    LeadsOn(w, w1, w2);
    var w3 := SuccessWritten(w2, w.tasks, r);
    LeadsOn(w, w2, w3);
    v := RolledQuietly(w3, w.tasks, r);
    LeadsOn(w, w3, v);
    assert seq(1, _ => Done) == [Done];
  }

  lemma SuccessWritten(w: World, base: seq<Task>, r: nat) returns (v: World)
    requires |w.tasks| == |base| + 1 && w.tasks == base + [w.tasks[|base|]]
    requires w.tasks[|base|].WriteSucceeded? && w.tasks[|base|].row == r
    requires r < |w.db.rows| == |w.history| && !w.db.rows[r].Terminal()
    ensures Leads(w, v) && r < |v.db.rows| && v.db.rows[r].status.Succeeded? && |v.history| == |w.history|
    ensures v == w.(db := WriteRow(w.db, r, v.db.rows[r]), tasks := base + [CountHosts(r)], history := v.history)
  {
    v := Next(w, Step(|base|, FINE));
    assert w.tasks[|base| := CountHosts(r)] == base + [CountHosts(r)];
    assert v.tasks == base + [CountHosts(r)];
    assert v.db.rows[r].status.Succeeded? && |v.history| == |w.history|;
    assert v == w.(db := WriteRow(w.db, r, v.db.rows[r]), tasks := base + [CountHosts(r)], history := v.history);
    hide Next;
    LeadsNowhere(v);
    LeadsFirst(w, Step(|base|, FINE), v);
  }

  lemma RolledQuietly(w: World, base: seq<Task>, r: nat) returns (v: World)
    requires w.tasks == base + [CountHosts(r)] && r < |w.db.rows| && RollsUpQuietly(w.db.rows)
    requires w.db.parent.status.Running?
    ensures Leads(w, v) && v == w.(db := w.db.(parent := v.db.parent), tasks := base + [Done])
    ensures v.db.parent.status.Running?
  {
    hide Leads, Next, ExecutorRollup;
    var k := |base|;
    if AllTerminal(w.db.rows) {
      Moves(w, k, FINE, Done);
      v := w.(tasks := base + [Done]);
      assert w.tasks[k := Done] == v.tasks;
    } else {
      Moves(w, k, FINE, WriteParent(Running));
      var u := w.(tasks := base + [WriteParent(Running)]);
      assert w.tasks[k := WriteParent(Running)] == u.tasks;
      v := RunningWritten(u, base);
      LeadsOn(w, u, v);
    }
  }

  lemma RunningWritten(w: World, base: seq<Task>) returns (v: World)
    requires w.tasks == base + [WriteParent(Running)] && !AllTerminal(w.db.rows)
    ensures Leads(w, v) && v.db.parent.status.Running?
    ensures v == w.(db := w.db.(parent := v.db.parent), tasks := base + [Done])
  {
    v := Next(w, Step(|base|, FINE));
    assert w.tasks[|base| := Done] == base + [Done];
    assert v == w.(db := w.db.(parent := v.db.parent), tasks := base + [Done]) && v.db.parent.status.Running?;
    hide Next;
    LeadsNowhere(v);
    LeadsFirst(w, Step(|base|, FINE), v);
  }

  const CANCELLATION := AgentEvent(AgentCancelled, None, None)
  const CANCELS := FINE.(event := Some(CANCELLATION))

  lemma OneAccepted(w: World, r: nat)
    requires OnlyBusy(w, r)
    ensures Next(w, ScanRelays) == w.(tasks := w.tasks + [AttachRelays([r])])
  {
    var found := Accepted(w.db.rows);
    assert r in found && forall k :: 0 <= k < |found| ==> found[k] in found;
    JustOne(found, r);
  }

  /** The relay attaches to the row. */
  lemma Attaches(w: World, r: nat)
    requires OnlyBusy(w, r)
    ensures Leads(w, w.(tasks := w.tasks + [Done] + [Listen(r)], relays := {r}))
  {
    hide Leads, Next;
    var k := |w.tasks|;
    LeadsNowhere(w);
    LeadsNext(w, w, ScanRelays);
    OneAccepted(w, r);
    var w1 := w.(tasks := w.tasks + [AttachRelays([r])]);
    AttachOne(w1, w.tasks, r);
    var w2 := w.(tasks := w.tasks + [AttachRelays([])] + [Listen(r)], relays := {r});
    LeadsNext(w, w1, Step(k, FINE));
    AttachEnds(w2, w.tasks, r);
    LeadsNext(w, w2, Step(k, FINE));
  }

  lemma AttachOne(w: World, base: seq<Task>, r: nat)
    requires w.tasks == base + [AttachRelays([r])] && r < |w.db.rows| && w.relays == {}
    ensures Next(w, Step(|base|, FINE))
            == w.(tasks := base + [AttachRelays([])] + [Listen(r)], relays := {r})
  {
    assert [r][1..] == [];
    assert w.tasks[|base| := AttachRelays([])] == base + [AttachRelays([])];
  }

  lemma AttachEnds(w: World, base: seq<Task>, r: nat)
    requires w.tasks == base + [AttachRelays([])] + [Listen(r)]
    ensures Next(w, Step(|base|, FINE)) == w.(tasks := base + [Done] + [Listen(r)])
  {
    assert w.tasks[|base| := Done] == base + [Done] + [Listen(r)];
  }

  /** The relay learns that the agent cancelled, while another host is open. */
  lemma Cancels(w: World, r: nat) returns (v: World)
    requires OnlyBusy(w, r) && exists q :: 0 <= q < |w.db.rows| && q != r && !w.db.rows[q].Terminal()
    ensures Leads(w, v) && EndedSo(w, v, r, Cancelled, 2)
  {
    hide Leads, Next, OpenCount;
    var base := w.tasks + [Done];
    var k := |base|;
    Attaches(w, r);
    var w1 := w.(tasks := base + [Listen(r)], relays := {r});
    var apply := ApplyAgentEvent(r, CANCELLATION, Cancelled);
    Moves(w1, k, CANCELS, apply);
    var w2 := w1.(tasks := base + [apply]);
    assert w1.tasks[k := apply] == w2.tasks;
    LeadsOn(w, w1, w2);
    var w3 := CancelWritten(w2, base, r);
    LeadsOn(w, w2, w3);
    var q :| 0 <= q < |w.db.rows| && q != r && !w.db.rows[q].Terminal();
    assert !w3.db.rows[q].Terminal();
    v := NotifiesOnly(w3, base, r, q);
    LeadsOn(w, w3, v);
    assert seq(2, _ => Done) == [Done] + [Done];
  }

  lemma CancelStep(w: World, base: seq<Task>, r: nat)
    requires w.tasks == base + [ApplyAgentEvent(r, CANCELLATION, Cancelled)]
    requires r < |w.db.rows| == |w.history| && !w.db.rows[r].Terminal()
    ensures var v := Next(w, Step(|base|, FINE));
            && |v.db.rows| == |w.db.rows| && v.db.rows[r].status.Cancelled? && |v.history| == |w.history|
            && v == w.(db := WriteRow(w.db, r, v.db.rows[r]), tasks := base + [CountOpen(r, CANCELLATION)],
                       history := v.history)
  {
    hide Recorded;
    var next := CountOpen(r, CANCELLATION);
    assert w.tasks[|base| := next] == base + [next];
    RecordedLength(w.history, Execute(w.job, w.now, w.db, w.tasks[|base|], FINE));
  }

  lemma RecordedLength(history: seq<RowHistory>, e: Effect)
    ensures |Recorded(history, e)| == |history|
  {
  }

  lemma CancelWritten(w: World, base: seq<Task>, r: nat) returns (v: World)
    requires w.tasks == base + [ApplyAgentEvent(r, CANCELLATION, Cancelled)]
    requires r < |w.db.rows| == |w.history| && !w.db.rows[r].Terminal()
    ensures Leads(w, v) && r < |v.db.rows| && v.db.rows[r].status.Cancelled? && |v.history| == |w.history|
    ensures v == w.(db := WriteRow(w.db, r, v.db.rows[r]), tasks := base + [CountOpen(r, CANCELLATION)], history := v.history)
  {
    hide Next;
    v := Next(w, Step(|base|, FINE));
    CancelStep(w, base, r);
    LeadsNowhere(v);
    LeadsFirst(w, Step(|base|, FINE), v);
  }

  lemma NotifiesOnly(w: World, base: seq<Task>, r: nat, q: nat) returns (v: World)
    requires w.tasks == base + [CountOpen(r, CANCELLATION)] && r < |w.db.rows| && OpenAt(w, q) && w.relays == {r}
    ensures Leads(w, v) && |v.history| == |w.history|
    ensures v == w.(tasks := base + [Done], relays := {}, history := v.history)
  {
    hide Leads, Next, OpenCount;
    OpenRows(w.db.rows);
    OpenCountMeaning(Statuses(w.db.rows));
    var k := |base|;
    var notify := NotifyHost(r, CANCELLATION);
    Moves(w, k, FINE, notify);
    var u := w.(tasks := base + [notify]);
    assert w.tasks[k := notify] == u.tasks;
    NotifyStep(u, base, r);
    v := Next(u, Step(k, FINE));
    LeadsNext(w, u, Step(k, FINE));
  }

  lemma NotifyStep(w: World, base: seq<Task>, r: nat)
    requires w.tasks == base + [NotifyHost(r, CANCELLATION)] && r < |w.db.rows| && w.relays == {r}
    ensures var v := Next(w, Step(|base|, FINE));
            |v.history| == |w.history| && v == w.(tasks := base + [Done], relays := {}, history := v.history)
  {
    assert w.tasks[|base| := Done] == base + [Done];
  }

  /** The one dispatch of the job; its first host is accepted. */
  lemma FirstAccepted(job: Job, n: nat, now: int) returns (w: World)
    requires n >= 2 && Startable(job, n, now)
    ensures Leads(Initial(job, n, now), w) && OnlyBusy(w, 0) && |w.db.rows| == n && ToRun(w.tasks, 1, n)
    ensures forall q :: 1 <= q < n ==> w.db.rows[q] == FreshRow
  {
    hide Leads, Next, ToRun, QueuedHosts, CanDispatch;
    var t := FirstDispatch(job, n, now);
    var w0 := Initial(job, n, t);
    DispatchLeads(w0);
    var w1 := Fetched(w0);
    LeadsOn(Initial(job, n, now), w0, w1);
    AllToRun(w0, n);
    var i := RunOne(w1.tasks, 0, n);
    Accepts(w1, i, 0);
    w := w1.(db := WriteRow(w1.db, 0, Busy(t)), tasks := w1.tasks[i := Done]);
    LeadsOn(Initial(job, n, now), w1, w);
  }

  /** After the one dispatch of the job its first host is accepted, and cancels. */
  lemma FirstCancels(job: Job, n: nat, now: int) returns (v: World)
    requires n >= 2 && Startable(job, n, now)
    ensures Leads(Initial(job, n, now), v) && Mixed(v, 1) && |v.db.rows| == n
  {
    hide Leads, Next, ToRun, OnlyBusy;
    var w := FirstAccepted(job, n, now);
    assert !w.db.rows[1].Terminal();
    v := Cancels(w, 0);
    LeadsOn(Initial(job, n, now), w, v);
    MoreDone(w.tasks, 1, n, 2);
  }

  lemma AllToRun(w: World, n: nat)
    requires w.tasks == [] && |w.db.rows| == n && forall r :: 0 <= r < n ==> w.db.rows[r].status.Queued?
    ensures ToRun(Fetched(w).tasks, 0, n)
  {
    var hosts := QueuedHosts(w.db.rows);
    assert Fetched(w).tasks == [Done] + hosts;
  }

  lemma MixedRollsUpQuietly(w: World, k: nat, row: HostRow)
    requires Mixed(w, k) && k < |w.db.rows| && row.status.Succeeded?
    ensures RollsUpQuietly(w.db.rows[k := row])
  {
    var rows := w.db.rows[k := row];
    OpenRows(rows);
    ExecutorRollupMeaning(Statuses(rows));
    assert Statuses(rows)[0] == Cancelled && Statuses(rows)[k] == Succeeded;
    if AllTerminal(rows) {
      assert forall q :: 0 <= q < |rows| ==> !rows[q].status.Failed?;
    }
  }

  /** The next host is accepted, and succeeds. */
  lemma NextSucceeds(w: World, k: nat) returns (v: World)
    requires Mixed(w, k) && k < |w.db.rows|
    ensures Leads(w, v) && Mixed(v, k + 1) && |v.db.rows| == |w.db.rows|
  {
    hide Leads, Next, RollsUpQuietly, ToRun, Busy;
    var n := |w.db.rows|;
    var i := RunOne(w.tasks, k, n);
    Accepts(w, i, k);
    var u := w.(db := WriteRow(w.db, k, Busy(w.now)), tasks := w.tasks[i := Done]);
    assert Pollable(Busy(w.now)) by { BusyIsPollable(w.now); }
    forall row: HostRow | row.status.Succeeded? ensures RollsUpQuietly(u.db.rows[k := row]) {
      assert u.db.rows[k := row] == w.db.rows[k := row];
      MixedRollsUpQuietly(w, k, row);
    }
    v := Succeeds(u, k);
    LeadsOn(w, u, v);
    MoreDone(u.tasks, k + 1, n, 1);
  }

  lemma BusyIsPollable(now: int)
    ensures Pollable(Busy(now))
  {
  }

  lemma {:induction false} AllSucceed(w: World, k: nat) returns (v: World)
    requires Mixed(w, k)
    ensures Leads(w, v) && Mixed(v, |w.db.rows|) && |v.db.rows| == |w.db.rows|
    decreases |w.db.rows| - k
  {
    hide Leads;
    if k == |w.db.rows| {
      v := w;
      LeadsNowhere(w);
    } else {
      var u := NextSucceeds(w, k);
      v := AllSucceed(u, k + 1);
      LeadsOn(w, u, v);
    }
  }

  lemma MixedEnd(v: World)
    requires Mixed(v, |v.db.rows|) && |v.db.rows| >= 2
    ensures LeftRunning(v) && Cancelled in Statuses(v.db.rows) && Succeeded in Statuses(v.db.rows)
  {
    assert Statuses(v.db.rows)[0] == Cancelled && Statuses(v.db.rows)[1] == Succeeded;
  }

  /**
    With two hosts or more every job that can start has a run, without a restart and without a stale
    rollup, in which one host is cancelled and the others succeed, and the job is left
    running for good: the executor has no answer for the mix.
  */
  lemma MixedEndLeavesRunning(job: Job, n: nat, now: int)
    requires n >= 2 && Startable(job, n, now)
    ensures exists acts :: var w := Run(Initial(job, n, now), acts);
                           Steady(acts) && LeftRunning(w) && !w.overwritten
                           && Cancelled in Statuses(w.db.rows) && Succeeded in Statuses(w.db.rows)
  {
    hide Leads, LeftRunning;
    var w0 := Initial(job, n, now);
    var w := FirstCancels(job, n, now);
    var v := AllSucceed(w, 1);
    LeadsOn(w0, w, v);
    MixedEnd(v);
    RunOf(w0, v);
  }
}
