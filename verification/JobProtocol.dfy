/**
  The job execution protocol as a state machine. Every SQL statement of the
  dispatcher, the poller, the retry and timeout scanners, the failure handler
  and the WS relay is one atomic step; everything a task has read before is
  carried along, possibly stale. Any task in flight may take the next step.

  What the outside world answers (agents, host and window lookups) arrives as an
  arbitrary `Answer`.
*/
module JobProtocol {
  import opened Wrappers
  import opened JobRows
  import opened JobRollup

  datatype JobKind = PatchApply | PatchRemove | Reboot | Rollback | SelfUpgrade

  /**
    The fixed columns of the job, the worker's configuration, and the times at which
    each host has an open maintenance window.
  */
  datatype Job = Job(kind: JobKind, immediate: bool, timeoutSecs: nat,
                     reconnectTimeoutSecs: nat, reconnectIntervalSecs: nat, open: (nat, int) -> bool)

  /** The status word of an agent, over HTTP or the WebSocket. */
  datatype AgentStatus =
    | AgentQueued | AgentRunning | AgentSucceeded | AgentCompleted
    | AgentFailed | AgentCancelled | AgentOther

  datatype AgentEvent = AgentEvent(status: AgentStatus, output: Option<string>, error: Option<string>)
  {
    /** The database status the relay stores; `None` for a word it ignores. */
    function DbStatus(): Option<Status> {
      match status
      case AgentRunning => Some(Running)
      case AgentSucceeded | AgentCompleted => Some(Succeeded)
      case AgentFailed => Some(Failed)
      case AgentCancelled => Some(Cancelled)
      case AgentQueued | AgentOther => None
    }

    /** The relay stops listening on these words; `completed` is not among them. */
    predicate StopsRelay() {
      status.AgentSucceeded? || status.AgentFailed? || status.AgentCancelled?
    }
  }

  datatype PollReply =
    | Report(event: AgentEvent)
    | JobNotFound(message: string)
    | CallFailed

  /** One `health()` sample taken while confirming a self-upgrade. */
  datatype VersionSample =
    | Landed(version: string)
    | NotYet
    | Fatal(reason: string)

  datatype Answer = Answer(
    ok: bool,
    text: string,
    reply: PollReply,
    sample: VersionSample,
    event: Option<AgentEvent>)

  /** An in-flight task, named after the statement or call it is about to make. */
  datatype Task =
    | Done
    // process_job
    | MarkJobRunning
    | FetchQueued
    // execute_host_job
    | FetchHost(row: nat)
    | HealthGate(row: nat)
    | WindowGate(row: nat)
    | WriteWaiting(row: nat, retryAt: int)
    | FetchJob(row: nat)
    | WriteRunning(row: nat)
    | CallAgent(row: nat)
    | WriteAgentJob(row: nat, agentJob: string)
    // handle_host_failure
    | ReadRetry(row: nat, error: Text)
    | WritePending(row: nat, count: int, retryAt: int, error: Text)
    | WriteFailed(row: nat, error: Text)
    // sync_job_status, started by the end of `row`
    | CountHosts(row: nat)
    | WriteParent(rollup: Status)
    // poll_single_host and the self-upgrade confirmation
    | PollAgent(row: nat)
    | ConfirmUpgrade(row: nat, elapsed: nat)
    | WriteSucceeded(row: nat, output: Text)
    // retry_pending_jobs and fail_timed_out_jobs, with the rows still to visit
    | ResetRows(rows: seq<nat>)
    | FailRows(rows: seq<nat>)
    // run_ws_relay, with the fetched rows still to attach to
    | AttachRelays(rows: seq<nat>)
    // relay_one_job, process_event and update_parent_job_status
    | Listen(row: nat)
    | ApplyAgentEvent(row: nat, event: AgentEvent, status: Status)
    | CountOpen(row: nat, event: AgentEvent)
    | CountOutcome(row: nat, event: AgentEvent)
    | WriteOutcome(row: nat, event: AgentEvent, outcome: Status)
    | NotifyHost(row: nat, event: AgentEvent)

  predicate InRange(t: Task, n: nat) {
    match t
    case Done | MarkJobRunning | FetchQueued | WriteParent(_) => true
    case ResetRows(rs) => forall r :: r in rs ==> r < n
    case FailRows(rs) => forall r :: r in rs ==> r < n
    case AttachRelays(rs) => forall r :: r in rs ==> r < n
    case _ => t.row < n
  }

  /** The row a live relay task serves. */
  function RelayRow(t: Task): Option<nat> {
    match t
    case Listen(r) => Some(r)
    case ApplyAgentEvent(r, _, _) => Some(r)
    case CountOpen(r, _) => Some(r)
    case CountOutcome(r, _) => Some(r)
    case WriteOutcome(r, _, _) => Some(r)
    case NotifyHost(r, _) => Some(r)
    case _ => None
  }

  /** The row whose end made this task start a rollup of the parent. */
  function RollupStart(t: Task): Option<nat> {
    match t
    case CountHosts(r) => Some(r)
    case CountOpen(r, _) => Some(r)
    case _ => None
  }

  datatype Db = Db(rows: seq<HostRow>, parent: Parent)

  /** Which kind of host-row write a step made, if its guard let it through. */
  datatype Write =
    | NoWrite
    | Ended(row: nat)           // reached a terminal status
    | FailureRetried(row: nat)  // the failure handler scheduled a retry
    | FailureEnded(row: nat)    // the failure handler gave up

  datatype Effect = Effect(db: Db, next: Task, spawned: seq<Task>, write: Write)

  function Goto(db: Db, next: Task): Effect {
    Effect(db, next, [], NoWrite)
  }

  function WriteRow(db: Db, r: nat, row: HostRow): Db
    requires r < |db.rows|
  {
    db.(rows := db.rows[r := row])
  }

  /** Delays before retries one, two and three. */
  function RetryDelay(count: int): int {
    if count == 1 then 60 else if count == 2 then 300 else 1800
  }

  /** One dispatch per row found queued. */
  function QueuedHosts(rows: seq<HostRow>): (tasks: seq<Task>)
    ensures forall k :: 0 <= k < |tasks| ==>
              tasks[k].FetchHost? && tasks[k].row < |rows| && rows[tasks[k].row].status.Queued?
    ensures forall r: nat :: r < |rows| && rows[r].status.Queued? ==> FetchHost(r) in tasks
    ensures forall i, j :: 0 <= i < j < |tasks| ==> tasks[i].row < tasks[j].row
  {
    var queued := Select(rows, (r, row: HostRow) => row.status.Queued?);
    var tasks := seq(|queued|, k requires 0 <= k < |queued| => FetchHost(queued[k]));
    assert forall k :: 0 <= k < |queued| ==> tasks[k] == FetchHost(queued[k]);
    tasks
  }

  /** `process_job`. */
  function QueueStep(now: int, db: Db, t: Task): Effect {
    match t
    case MarkJobRunning =>
      Goto(db.(parent := db.parent.MarkRunning(now)), FetchQueued)
    case FetchQueued => Effect(db, Done, QueuedHosts(db.rows), NoWrite)
    case _ => Goto(db, Done)
  }

  /** `execute_host_job`. */
  function DispatchStep(now: int, db: Db, t: Task, a: Answer): Effect
    requires InRange(t, |db.rows|)
  {
    match t
    case FetchHost(r) => Goto(db, if a.ok then HealthGate(r) else ReadRetry(r, Raw(a.text)))
    case HealthGate(r) => Goto(db, if a.ok then FetchJob(r) else WindowGate(r))
    case WindowGate(r) =>
      Goto(db, if a.ok then WriteWaiting(r, now + 300)
               else ReadRetry(r, WindowClosed))
    case WriteWaiting(r, retryAt) =>
      Goto(WriteRow(db, r, db.rows[r].MarkWaiting(retryAt)), Done)
    case FetchJob(r) => Goto(db, if a.ok then WriteRunning(r) else ReadRetry(r, Raw(a.text)))
    case WriteRunning(r) =>
      Goto(WriteRow(db, r, db.rows[r].MarkRunning(now)), CallAgent(r))
    case CallAgent(r) =>
      Goto(db, if a.ok then WriteAgentJob(r, a.text) else ReadRetry(r, Raw(a.text)))
    case WriteAgentJob(r, id) =>
      Goto(WriteRow(db, r, db.rows[r].StoreAgentJob(id)), Done)
    case _ => Goto(db, Done)
  }

  /** `handle_host_failure`. */
  function FailureStep(now: int, db: Db, t: Task): Effect
    requires InRange(t, |db.rows|)
  {
    match t
    case ReadRetry(r, error) =>
      var row := db.rows[r];
      Goto(db, if row.Terminal() then Done
               else if row.retryCount < 3 then
                 var count := row.retryCount + 1;
                 WritePending(r, count, now + RetryDelay(count), error)
               else WriteFailed(r, error))
    case WritePending(r, count, retryAt, error) =>
      Effect(WriteRow(db, r, db.rows[r].MarkPending(count, retryAt, error)), Done, [],
             if db.rows[r].Terminal() then NoWrite else FailureRetried(r))
    case WriteFailed(r, error) =>
      if db.rows[r].Terminal() then Goto(db, Done)
      else Effect(WriteRow(db, r, db.rows[r].MarkFailed(now, error)), CountHosts(r), [], FailureEnded(r))
    case _ => Goto(db, Done)
  }

  /** `sync_job_status`, `poll_single_host` and the self-upgrade confirmation. */
  function PollStep(job: Job, now: int, db: Db, t: Task, a: Answer): Effect
    requires InRange(t, |db.rows|)
  {
    match t
    case CountHosts(_) =>
      var rollup := ExecutorRollup(Statuses(db.rows));
      Goto(db, if rollup.Some? then WriteParent(rollup.value) else Done)
    case WriteParent(rollup) =>
      Goto(db.(parent := db.parent.WriteRollup(now, rollup)), Done)
    case PollAgent(r) => Goto(db, Polled(job, r, a))
    case ConfirmUpgrade(r, elapsed) => Goto(db, Confirmed(job, r, elapsed, a.sample))
    case WriteSucceeded(r, text) =>
      if db.rows[r].Terminal() then Goto(db, Done)
      else Effect(WriteRow(db, r, db.rows[r].MarkSucceeded(now, text)), CountHosts(r), [], Ended(r))
    case _ => Goto(db, Done)
  }

  /** `retry_pending_jobs` and `fail_timed_out_jobs`, one fetched row at a time. */
  function ScanStep(now: int, db: Db, t: Task, a: Answer): Effect
    requires InRange(t, |db.rows|)
  {
    match t
    case ResetRows(rs) =>
      if rs == [] then Goto(db, Done)
      else
        var r := rs[0];
        assert r in rs;
        Effect(WriteRow(db, r, db.rows[r].ResetToQueued()), ResetRows(rs[1..]),
               if db.rows[r].Terminal() then [] else [FetchHost(r)], NoWrite)
    case FailRows(rs) =>
      if rs == [] then Goto(db, Done)
      else
        var r := rs[0];
        assert r in rs;
        if db.rows[r].status != Running then Goto(db, FailRows(rs[1..]))
        else
          Effect(WriteRow(db, r, db.rows[r].MarkTimedOut(now, Raw(a.text))), FailRows(rs[1..]),
                 [CountHosts(r)], Ended(r))
    case _ => Goto(db, Done)
  }

  /** `run_ws_relay`, `relay_one_job`, `process_event` and `update_parent_job_status`. */
  function RelayStep(now: int, db: Db, t: Task, a: Answer): Effect
    requires InRange(t, |db.rows|)
  {
    match t
    case AttachRelays(rs) =>
      if rs == [] then Goto(db, Done)
      else Effect(db, AttachRelays(rs[1..]), if a.ok then [Listen(rs[0])] else [], NoWrite)
    case Listen(r) =>
      if a.event.None? then Goto(db, Done)
      else
        var event := a.event.value;
        Goto(db, match event.DbStatus()
                 case Some(status) => ApplyAgentEvent(r, event, status)
                 case None => Listen(r))
    case ApplyAgentEvent(r, event, status) =>
      var written := WriteRow(db, r, db.rows[r].ApplyEvent(now, status, event.output.GetOr(""), event.error));
      if db.rows[r].Terminal() then Goto(written, AfterEvent(r, event))
      else if status.Terminal() then Effect(written, CountOpen(r, event), [], Ended(r))
      else Goto(written, NotifyHost(r, event))
    case CountOpen(r, event) =>
      Goto(db, if OpenCount(Statuses(db.rows)) > 0 then NotifyHost(r, event) else CountOutcome(r, event))
    case CountOutcome(r, event) =>
      Goto(db, WriteOutcome(r, event, RelayRollup(Statuses(db.rows))))
    case WriteOutcome(r, event, outcome) =>
      Goto(db.(parent := db.parent.WriteOutcome(now, outcome)), NotifyHost(r, event))
    case NotifyHost(r, event) => Goto(db, AfterEvent(r, event))
    case _ => Goto(db, Done)
  }

  datatype Role = Idle | Queueing | Dispatching | Failing | Polling | Scanning | Relaying

  /** Which routine a task is in. */
  function RoleOf(t: Task): Role {
    match t
    case Done => Idle
    case MarkJobRunning | FetchQueued => Queueing
    case FetchHost(_) | HealthGate(_) | WindowGate(_) | FetchJob(_) | WriteRunning(_) | CallAgent(_) => Dispatching
    case WriteWaiting(_, _) | WriteAgentJob(_, _) => Dispatching
    case ReadRetry(_, _) | WriteFailed(_, _) => Failing
    case WritePending(_, _, _, _) => Failing
    case CountHosts(_) | WriteParent(_) | PollAgent(_) => Polling
    case ConfirmUpgrade(_, _) | WriteSucceeded(_, _) => Polling
    case ResetRows(_) | FailRows(_) => Scanning
    case AttachRelays(_) | Listen(_) => Relaying
    case ApplyAgentEvent(_, _, _) | WriteOutcome(_, _, _) => Relaying
    case CountOpen(_, _) | CountOutcome(_, _) | NotifyHost(_, _) => Relaying
  }

  /** One step of a task: its next SQL statement or agent call. */
  function Execute(job: Job, now: int, db: Db, t: Task, a: Answer): Effect
    requires InRange(t, |db.rows|)
  {
    match RoleOf(t)
    case Idle => Goto(db, Done)
    case Queueing => QueueStep(now, db, t)
    case Dispatching => DispatchStep(now, db, t, a)
    case Failing => FailureStep(now, db, t)
    case Polling => PollStep(job, now, db, t, a)
    case Scanning => ScanStep(now, db, t, a)
    case Relaying => RelayStep(now, db, t, a)
  }

  /** What the poller does with the agent's reply. */
  function Polled(job: Job, r: nat, a: Answer): Task {
    if job.kind.SelfUpgrade? then
      match a.reply
      case Report(event) =>
        (match event.status
         case AgentSucceeded | AgentCompleted =>
           // the inline version read either confirms the upgrade or defers to the loop
           if a.sample.Landed? then WriteSucceeded(r, Upgraded(a.sample.version))
           else ConfirmUpgrade(r, 0)
         case AgentFailed => ConfirmUpgrade(r, 0)
         case _ => Done)
      case JobNotFound(_) | CallFailed => ConfirmUpgrade(r, 0)
    else
      match a.reply
      case Report(event) =>
        (match event.status
         case AgentSucceeded | AgentCompleted => WriteSucceeded(r, Raw(event.output.GetOr("")))
         case AgentFailed => ReadRetry(r, TextOr(event.error, FailedWithoutDetail))
         case AgentCancelled => ReadRetry(r, TextOr(event.error, CancelledByAgent))
         case _ => Done)
      case JobNotFound(message) => ReadRetry(r, JobLost(message))
      case CallFailed => Done
  }

  function TextOr(text: Option<string>, default: Text): Text {
    if text.Some? then Raw(text.value) else default
  }

  /** One turn of the self-upgrade confirmation loop. */
  function Confirmed(job: Job, r: nat, elapsed: nat, sample: VersionSample): Task {
    var waited := elapsed + job.reconnectIntervalSecs;
    match sample
    case Landed(version) => WriteSucceeded(r, Upgraded(version))
    case Fatal(reason) => ReadRetry(r, Raw(reason))
    case NotYet =>
      if waited >= job.reconnectTimeoutSecs then ReadRetry(r, ReconnectTimedOut)
      else ConfirmUpgrade(r, waited)
  }

  function AfterEvent(r: nat, event: AgentEvent): Task {
    if event.StopsRelay() then Done else Listen(r)
  }

  // ---------------------------------------------------------------------------
  // The whole system
  // ---------------------------------------------------------------------------

  /** How often the writes of each kind have affected a row, and their follow-ups been made. */
  datatype RowHistory = RowHistory(endings: nat, failures: nat, rollups: nat, notices: nat)

  /**
    `relays` is the relay's set of tracked rows. `history` and `overwritten` only
    record what happened: `overwritten` says that a rollup to `running` has
    landed after every host had ended, and no end of the job since.
  */
  datatype World = World(
    job: Job,
    now: int,
    db: Db,
    tasks: seq<Task>,
    relays: set<nat>,
    history: seq<RowHistory>,
    overwritten: bool)

  datatype Action =
    | Tick(seconds: nat)
    | Dispatch                    // NOTIFY, the queue scan or an open window starts process_job
    | ScanRunning                 // poll_running_jobs
    | ScanRetries                 // retry_pending_jobs
    | ScanTimeouts                // fail_timed_out_jobs
    | ScanRelays                  // run_ws_relay
    | Restart                     // the worker stops and is started again
    | Step(task: nat, answer: Answer)

  /** The queue scan's WHERE clause. */
  predicate QueuedDue(job: Job, now: int, parent: Parent, windowOpen: bool, row: HostRow) {
    row.status.Queued?
    && (row.retryNextAt.None? || row.retryNextAt.value <= now)
    && !parent.status.Cancelled?
    && (job.immediate || windowOpen)
  }

  /** The retry scan's WHERE clause. */
  predicate RetryDue(now: int, parent: Parent, row: HostRow) {
    (row.status.Pending? || row.status.WaitingHealthCheck?)
    && row.retryNextAt.Some? && row.retryNextAt.value <= now
    && !parent.status.Cancelled?
  }

  /** The timeout scan's WHERE clause; a timeout of zero disables the scan. */
  predicate TimedOut(job: Job, now: int, row: HostRow) {
    job.timeoutSecs != 0
    && row.status.Running? && !job.kind.SelfUpgrade?
    && row.startedAt.Some? && row.startedAt.value < now - job.timeoutSecs
  }

  predicate Pollable(row: HostRow) {
    row.status.Running? && row.agentJobId.Some?
  }

  /** One poll per running row the agent knows. */
  function Polls(rows: seq<HostRow>): (tasks: seq<Task>)
    ensures forall k :: 0 <= k < |tasks| ==>
              tasks[k].PollAgent? && tasks[k].row < |rows| && Pollable(rows[tasks[k].row])
    ensures forall r: nat :: r < |rows| && Pollable(rows[r]) ==> PollAgent(r) in tasks
    ensures forall i, j :: 0 <= i < j < |tasks| ==> tasks[i].row < tasks[j].row
  {
    var found := Select(rows, (r, row) => Pollable(row));
    var tasks := seq(|found|, k requires 0 <= k < |found| => PollAgent(found[k]));
    assert forall k :: 0 <= k < |found| ==> tasks[k] == PollAgent(found[k]);
    tasks
  }

  /** The rows that the relay's query returns. */
  function Accepted(rows: seq<HostRow>): (found: seq<nat>)
    ensures forall r: nat :: r in found <==> r < |rows| && Pollable(rows[r])
    ensures forall i, j :: 0 <= i < j < |found| ==> found[i] < found[j]
  {
    Select(rows, (r, row) => Pollable(row))
  }

  function DueForRetry(now: int, db: Db): (found: seq<nat>)
    ensures forall r: nat :: r in found <==> r < |db.rows| && RetryDue(now, db.parent, db.rows[r])
    ensures forall i, j :: 0 <= i < j < |found| ==> found[i] < found[j]
  {
    Select(db.rows, (r, row) => RetryDue(now, db.parent, row))
  }

  function DueForTimeout(job: Job, now: int, db: Db): (found: seq<nat>)
    ensures forall r: nat :: r in found <==> r < |db.rows| && TimedOut(job, now, db.rows[r])
    ensures forall i, j :: 0 <= i < j < |found| ==> found[i] < found[j]
  {
    Select(db.rows, (r, row) => TimedOut(job, now, row))
  }

  function Spawn(w: World, tasks: seq<Task>): World {
    w.(tasks := w.tasks + tasks)
  }

  /**
    What starts `process_job`: the NOTIFY of an immediate job, or a queued host that is
    due. It then dispatches every queued host of the job, whatever their windows.
  */
  predicate CanDispatch(w: World) {
    w.job.immediate
    || exists r :: 0 <= r < |w.db.rows| && QueuedDue(w.job, w.now, w.db.parent, w.job.open(r, w.now), w.db.rows[r])
  }

  function Next(w: World, act: Action): World {
    match act
    case Tick(d) => w.(now := w.now + d)
    case Dispatch => if CanDispatch(w) then Spawn(w, [MarkJobRunning]) else w
    case ScanRunning => Spawn(w, Polls(w.db.rows))
    case ScanRetries => Spawn(w, [ResetRows(DueForRetry(w.now, w.db))])
    case ScanTimeouts => Spawn(w, [FailRows(DueForTimeout(w.job, w.now, w.db))])
    case ScanRelays => Spawn(w, [AttachRelays(Accepted(w.db.rows))])
    case Restart => w.(tasks := [], relays := {})
    case Step(i, a) =>
      if i < |w.tasks| && InRange(w.tasks[i], |w.db.rows|) then StepTask(w, i, a) else w
  }

  function StepTask(w: World, i: nat, a: Answer): World
    requires i < |w.tasks| && InRange(w.tasks[i], |w.db.rows|)
  {
    var t := w.tasks[i];
    var e := Execute(w.job, w.now, w.db, t, Told(w, t, a));
    w.(db := e.db,
       tasks := w.tasks[i := e.next] + e.spawned,
       relays := Tracked(w.relays, t, e),
       history := Noticed(Recorded(w.history, e), t),
       overwritten := Overwritten(w, t))
  }

  /**
    Two questions are not for the outside world: whether a row is tracked is answered
    by the relay's set, and whether its window is open by the windows of its host.
  */
  function Told(w: World, t: Task, a: Answer): Answer {
    match t
    case AttachRelays(rs) => if rs == [] then a else a.(ok := rs[0] !in w.relays)
    case WindowGate(r) => a.(ok := w.job.open(r, w.now))
    case _ => a
  }

  function Tracked(relays: set<nat>, t: Task, e: Effect): set<nat> {
    if e.spawned != [] && e.spawned[0].Listen? then relays + {e.spawned[0].row}
    else if RelayRow(e.next).None? && RelayRow(t).Some? then relays - {RelayRow(t).value}
    else relays
  }

  predicate Overwritten(w: World, t: Task) {
    match t
    case WriteParent(rollup) => if rollup.Terminal() then false else w.overwritten || AllTerminal(w.db.rows)
    case WriteOutcome(_, _, _) => false
    case _ => w.overwritten
  }

  /** The history after a step: at most one write and at most one rollup start. */
  function Recorded(history: seq<RowHistory>, e: Effect): seq<RowHistory> {
    var rolled := RecordRollup(history, RollupStart(e.next));
    var spawnedRollup := if e.spawned == [] then None else RollupStart(e.spawned[0]);
    RecordWrite(RecordRollup(rolled, spawnedRollup), e.write)
  }

  /** The event tells that the agent's job has ended. */
  predicate TellsEnd(event: AgentEvent) {
    event.DbStatus().Some? && event.DbStatus().value.Terminal()
  }

  /** A browser notification of an end is counted when it is sent. */
  function Noticed(history: seq<RowHistory>, t: Task): seq<RowHistory> {
    if t.NotifyHost? && TellsEnd(t.event) && t.row < |history| then
      history[t.row := history[t.row].(notices := history[t.row].notices + 1)]
    else history
  }

  function RecordRollup(history: seq<RowHistory>, started: Option<nat>): seq<RowHistory> {
    match started
    case Some(r) =>
      if r < |history| then history[r := history[r].(rollups := history[r].rollups + 1)] else history
    case None => history
  }

  function RecordWrite(history: seq<RowHistory>, write: Write): seq<RowHistory> {
    if write.NoWrite? || write.row >= |history| then history
    else
      var h := history[write.row];
      history[write.row := RowHistory(
        h.endings + (if write.FailureRetried? then 0 else 1),
        h.failures + (if write.Ended? then 0 else 1),
        h.rollups,
        h.notices)]
  }

  /** A job as the web tier inserts it: `n` queued hosts, nothing in flight. */
  function Initial(job: Job, n: nat, now: int): World {
    World(job, now, Db(seq(n, _ => FreshRow), FreshParent), [], {},
          seq(n, _ => RowHistory(0, 0, 0, 0)), false)
  }

  function Run(w: World, acts: seq<Action>): World
    decreases |acts|
  {
    if acts == [] then w else Run(Next(w, acts[0]), acts[1..])
  }
}
