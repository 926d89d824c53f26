/** Maintenance windows and the patch jobs that are created while they are open. */
module MaintenanceScheduler {
  import opened Wrappers

  /** Microseconds since the start of 1970 in UTC. */
  type Time = int

  const MINUTE := 60_000_000
  const DAY := 86_400_000_000

  // ---------------------------------------------------------------------------
  // Windows
  // ---------------------------------------------------------------------------

  datatype Recurrence = Once | Daily | Weekly(weekday: Option<int>) | Monthly(monthday: Option<int>)

  datatype Window = Window(id: nat, host: nat, enabled: bool, autoApply: bool, autoReboot: bool,
                           recurrence: Recurrence, start: Time, minutes: int)

  /** The day of the month of a day counted from the start of 1970. */
  type Calendar = int -> int

  function TimeOfDay(t: Time): (s: Time)
    ensures 0 <= s < DAY
  {
    t % DAY
  }

  /** 0 is Sunday; the first day of 1970 was a Thursday. */
  function Weekday(t: Time): int {
    (t / DAY + 4) % 7
  }

  /** The end of the daily slot: a time of day, so it wraps at midnight. */
  function SlotEnd(w: Window): Time {
    TimeOfDay(TimeOfDay(w.start) + w.minutes * MINUTE)
  }

  predicate InDailySlot(w: Window, t: Time) {
    TimeOfDay(w.start) <= TimeOfDay(t) < SlotEnd(w)
  }

  predicate Open(calendar: Calendar, w: Window, t: Time) {
    match w.recurrence
    case Once => w.start <= t < w.start + w.minutes * MINUTE
    case Daily => InDailySlot(w, t)
    case Weekly(day) => day == Some(Weekday(t)) && InDailySlot(w, t)
    case Monthly(day) => day == Some(calendar(t / DAY)) && InDailySlot(w, t)
  }

  /** Where the current cycle starts; for a recurring window at today's start time. */
  function CycleStart(w: Window, t: Time): Time {
    if w.recurrence.Once? then w.start else t - TimeOfDay(t) + TimeOfDay(w.start)
  }

  /** An open window's cycle has started. */
  lemma OpenHasStarted(calendar: Calendar, w: Window, t: Time)
    requires Open(calendar, w, t)
    ensures CycleStart(w, t) <= t
  {
  }

  lemma SameDaySameCycle(w: Window, t: Time, u: Time)
    requires t / DAY == u / DAY
    ensures CycleStart(w, t) == CycleStart(w, u)
  {
  }

  // ---------------------------------------------------------------------------
  // When recurring windows open
  // ---------------------------------------------------------------------------

  /** The time since the last daily start is less than the duration. */
  predicate WithinDuration(w: Window, t: Time) {
    TimeOfDay(t - w.start) < w.minutes * MINUTE
  }

  predicate EndsBeforeMidnight(w: Window) {
    TimeOfDay(w.start) + w.minutes * MINUTE < DAY
  }

  /** A recurring window's day: any, the day of the week, or the day of the month. */
  predicate OnDay(calendar: Calendar, w: Window, t: Time) {
    match w.recurrence
    case Once | Daily => true
    case Weekly(day) => day == Some(Weekday(t))
    case Monthly(day) => day == Some(calendar(t / DAY))
  }

  ghost predicate HasDays(calendar: Calendar, w: Window) {
    exists t: Time :: OnDay(calendar, w, t)
  }

  /** The slot ends before midnight; one of negative length must not wrap past its start. */
  predicate SlotFits(w: Window) {
    if w.minutes >= 0 then EndsBeforeMidnight(w) else SlotEnd(w) <= TimeOfDay(w.start)
  }

  /**
    A recurring window is open exactly during the slots of its days if and only if
    its slots end before midnight, or there are no such days.
  */
  lemma OpenDuringSlots(calendar: Calendar, w: Window)
    requires !w.recurrence.Once?
    ensures (forall t :: Open(calendar, w, t) <==> OnDay(calendar, w, t) && WithinDuration(w, t))
            <==> SlotFits(w) || !HasDays(calendar, w)
  {
    if SlotFits(w) {
      forall t ensures Open(calendar, w, t) <==> OnDay(calendar, w, t) && WithinDuration(w, t) {
        SinceStart(w, t);
      }
    } else if HasDays(calendar, w) {
      var day: Time :| OnDay(calendar, w, day);
      var midnight := day - TimeOfDay(day);
      var t := midnight + if w.minutes >= 0 then DAY - 1 else TimeOfDay(w.start);
      assert t / DAY == day / DAY && TimeOfDay(t) == t - midnight;
      SinceStart(w, t);
      assert OnDay(calendar, w, t) && WithinDuration(w, t) != Open(calendar, w, t);
    }
  }

  /** The days of a weekly window are those of a week. */
  lemma WeeklyHasDays(calendar: Calendar, w: Window)
    requires w.recurrence.Weekly?
    ensures HasDays(calendar, w) <==> w.recurrence.weekday.Some? && 0 <= w.recurrence.weekday.value < 7
  {
    if w.recurrence.weekday.Some? && 0 <= w.recurrence.weekday.value < 7 {
      var t: Time := (w.recurrence.weekday.value + 3) * DAY;
      assert t / DAY == w.recurrence.weekday.value + 3;
      assert OnDay(calendar, w, t);
    }
  }

  lemma SinceStart(w: Window, t: Time)
    ensures var s, u := TimeOfDay(w.start), TimeOfDay(t);
            TimeOfDay(t - w.start) == if u >= s then u - s else u - s + DAY
  {
    var days := t / DAY - w.start / DAY;
    assert t - w.start == days * DAY + TimeOfDay(t) - TimeOfDay(w.start);
  }

  /** The slot a recurring window can be open in: the times up to a wrapped end. */
  predicate CanOpen(w: Window) {
    TimeOfDay(w.start) < SlotEnd(w)
  }

  /** A daily window is open at some time if and only if its wrapped end is after its start. */
  lemma DailyOpensSometime(calendar: Calendar, w: Window)
    requires w.recurrence == Daily
    ensures (exists t :: Open(calendar, w, t)) <==> CanOpen(w)
  {
    if CanOpen(w) {
      assert Open(calendar, w, w.start);
    }
  }

  /** A slot shorter than a day that reaches or crosses midnight never opens. */
  lemma CrossingMidnightNeverOpens(calendar: Calendar, w: Window, t: Time)
    requires !w.recurrence.Once?
    requires 0 <= w.minutes * MINUTE < DAY && !EndsBeforeMidnight(w)
    ensures !Open(calendar, w, t)
  {
  }

  // ---------------------------------------------------------------------------
  // Automatic jobs
  // ---------------------------------------------------------------------------

  /** A patch job of a window; `auto` marks those the scheduler created. */
  datatype Job = Job(window: nat, host: nat, created: Time, auto: bool)

  /** What a tick meets at one open window: patches, the times of its check and insert, the insert's success. */
  datatype Visit = Visit(pending: bool, checked: Time, created: Time, stored: bool)

  predicate BelongsTo(job: Job, w: Window) {
    job.window == w.id && job.host == w.host
  }

  /** Some job of the window was created in the cycle of time `t`. */
  predicate HasJob(jobs: seq<Job>, w: Window, t: Time) {
    exists i :: 0 <= i < |jobs| && BelongsTo(jobs[i], w) && jobs[i].created >= CycleStart(w, t)
  }

  predicate Selected(calendar: Calendar, w: Window, begun: Time) {
    w.enabled && w.autoApply && w.autoReboot && Open(calendar, w, begun)
  }

  function Visited(jobs: seq<Job>, w: Window, visit: Visit): seq<Job> {
    if visit.pending && !HasJob(jobs, w, visit.checked) && visit.stored
    then jobs + [Job(w.id, w.host, visit.created, true)]
    else jobs
  }

  /** The jobs after a tick whose first query ran at `begun`; `visits` is by window. */
  function Ticked(calendar: Calendar, jobs: seq<Job>, ws: seq<Window>, begun: Time, visits: nat -> Visit): seq<Job> {
    if ws == [] then jobs
    else
      var n := |ws| - 1;
      var before := Ticked(calendar, jobs, ws[..n], begun, visits);
      if Selected(calendar, ws[n], begun) then Visited(before, ws[n], visits(n)) else before
  }

  class JobTable {
    var jobs: seq<Job>

    constructor ()
      ensures jobs == []
    {
      jobs := [];
    }

    /** `auto_create_patch_jobs` */
    method AutoCreatePatchJobs(calendar: Calendar, ws: seq<Window>, begun: Time, visits: nat -> Visit)
      modifies this
      ensures jobs == Ticked(calendar, old(jobs), ws, begun, visits)
    {
      hide Open, CycleStart;
      for i := 0 to |ws|
        invariant jobs == Ticked(calendar, old(jobs), ws[..i], begun, visits)
      {
        assert ws[..i + 1][..i] == ws[..i];
        var w := ws[i];
        if !Selected(calendar, w, begun) {
          continue;
        }
        var visit := visits(i);
        if !visit.pending {
          continue;
        }
        var existing := HasJob(jobs, w, visit.checked);
        if existing {
          continue;
        }
        if visit.stored {
          jobs := jobs + [Job(w.id, w.host, visit.created, true)];
        }
      }
      assert ws[..|ws|] == ws;
    }
  }

  // ---------------------------------------------------------------------------
  // Any run of ticks, with users' jobs in between
  // ---------------------------------------------------------------------------

  datatype Event =
    | Tick(begun: Time, visits: nat -> Visit)
    | UserJob(job: Job)

  /** The clock does not run backwards within a tick. */
  ghost predicate InOrder(e: Event) {
    match e
    case Tick(begun, visits) => forall i: nat :: begun <= visits(i).checked <= visits(i).created
    case UserJob(job) => !job.auto
  }

  /** The tick's times are on one day. */
  ghost predicate OnOneDay(e: Event) {
    e.Tick? ==> forall i: nat :: e.begun / DAY == e.visits(i).checked / DAY == e.visits(i).created / DAY
  }

  function Run(calendar: Calendar, ws: seq<Window>, events: seq<Event>): seq<Job> {
    if events == [] then []
    else
      var before := Run(calendar, ws, events[..|events| - 1]);
      match events[|events| - 1]
      case Tick(begun, visits) => Ticked(calendar, before, ws, begun, visits)
      case UserJob(job) => before + [job]
  }

  /** Window ids are unique. */
  predicate DistinctIds(ws: seq<Window>) {
    forall i, j :: 0 <= i < j < |ws| ==> ws[i].id != ws[j].id
  }

  /**
    Job `j`, if automatic, is the first job of its window in its cycle; and if all
    ticks are timely, that cycle has started.
  */
  predicate FirstOfCycle(jobs: seq<Job>, w: Window, j: nat, timely: bool)
    requires j < |jobs|
  {
    jobs[j].auto && BelongsTo(jobs[j], w) ==>
      && (timely ==> CycleStart(w, jobs[j].created) <= jobs[j].created)
      && forall i :: 0 <= i < j && BelongsTo(jobs[i], w) ==> jobs[i].created < CycleStart(w, jobs[j].created)
  }

  predicate OnePerCycle(jobs: seq<Job>, ws: seq<Window>, timely: bool) {
    forall j, k :: 0 <= j < |jobs| && 0 <= k < |ws| ==> FirstOfCycle(jobs, ws[k], j, timely)
  }

  lemma AddsJob(jobs: seq<Job>, ws: seq<Window>, job: Job, timely: bool)
    requires OnePerCycle(jobs, ws, timely)
    requires forall k :: 0 <= k < |ws| ==> FirstOfCycle(jobs + [job], ws[k], |jobs|, timely)
    ensures OnePerCycle(jobs + [job], ws, timely)
  {
    hide CycleStart, BelongsTo;
    forall j, k | 0 <= j < |jobs| + 1 && 0 <= k < |ws| ensures FirstOfCycle(jobs + [job], ws[k], j, timely) {
      if j < |jobs| {
        assert FirstOfCycle(jobs, ws[k], j, timely);
      }
    }
  }

  /** Cycles only move forward. */
  lemma CyclesAdvance(w: Window, t: Time, u: Time)
    requires t <= u
    ensures CycleStart(w, t) <= CycleStart(w, u)
  {
  }

  lemma VisitKeeps(calendar: Calendar, jobs: seq<Job>, ws: seq<Window>, n: nat, begun: Time, visit: Visit, timely: bool)
    requires OnePerCycle(jobs, ws, timely) && DistinctIds(ws) && n < |ws| && Open(calendar, ws[n], begun)
    requires begun <= visit.checked <= visit.created
    requires timely ==> begun / DAY == visit.created / DAY
    ensures OnePerCycle(Visited(jobs, ws[n], visit), ws, timely)
  {
    var w := ws[n];
    if Visited(jobs, w, visit) != jobs {
      OpenHasStarted(calendar, w, begun);
      CyclesAdvance(w, visit.checked, visit.created);
      if timely {
        SameDaySameCycle(w, begun, visit.created);
      }
      hide CycleStart, Open;
      var job := Job(w.id, w.host, visit.created, true);
      forall k | 0 <= k < |ws| ensures FirstOfCycle(jobs + [job], ws[k], |jobs|, timely) {
        if BelongsTo(job, ws[k]) {
          assert k == n;
        }
      }
      AddsJob(jobs, ws, job, timely);
    }
  }

  lemma {:induction false} TickKeeps(calendar: Calendar, jobs: seq<Job>, ws: seq<Window>, n: nat, e: Event, timely: bool)
    requires OnePerCycle(jobs, ws, timely) && DistinctIds(ws) && n <= |ws|
    requires e.Tick? && InOrder(e) && (timely ==> OnOneDay(e))
    ensures OnePerCycle(Ticked(calendar, jobs, ws[..n], e.begun, e.visits), ws, timely)
    decreases n
  {
    hide Open, OnePerCycle, Visited;
    if n > 0 {
      assert ws[..n][..n - 1] == ws[..n - 1];
      TickKeeps(calendar, jobs, ws, n - 1, e, timely);
      if Selected(calendar, ws[n - 1], e.begun) {
        VisitKeeps(calendar, Ticked(calendar, jobs, ws[..n - 1], e.begun, e.visits), ws, n - 1,
                   e.begun, e.visits(n - 1), timely);
      }
    }
  }

  /**
    Over any run of ticks and users' jobs an automatic job is created only if its
    window has had no job since the start of the cycle it is created in. If no
    tick straddles midnight, that cycle has started.
  */
  lemma {:induction false} AutoJobsOncePerCycle(calendar: Calendar, ws: seq<Window>, events: seq<Event>, timely: bool)
    requires DistinctIds(ws)
    requires forall e :: e in events ==> InOrder(e) && (timely ==> OnOneDay(e))
    ensures OnePerCycle(Run(calendar, ws, events), ws, timely)
    decreases |events|
  {
    hide Ticked, InOrder, OnOneDay;
    if events != [] {
      var front, e := events[..|events| - 1], events[|events| - 1];
      AutoJobsOncePerCycle(calendar, ws, front, timely);
      var before := Run(calendar, ws, front);
      match e {
        case Tick(begun, visits) =>
          TickKeeps(calendar, before, ws, |ws|, e, timely);
          assert ws[..|ws|] == ws;
        case UserJob(job) =>
          assert !job.auto by { UserJobsAreNotAuto(e); }
          AddsJob(before, ws, job, timely);
      }
    }
  }

  lemma SameCycleSameJobs(jobs: seq<Job>, w: Window, t: Time, u: Time)
    requires w.recurrence.Once? || t / DAY == u / DAY
    ensures HasJob(jobs, w, t) <==> HasJob(jobs, w, u)
  {
    assert CycleStart(w, t) == CycleStart(w, u) by {
      if !w.recurrence.Once? {
        SameDaySameCycle(w, t, u);
      }
    }
  }

  /** No job of the window was created on a later day. */
  predicate NoneLater(jobs: seq<Job>, w: Window, t: Time) {
    forall i :: 0 <= i < |jobs| && BelongsTo(jobs[i], w) ==> jobs[i].created / DAY <= t / DAY
  }

  /** The check finds the job of the opening, exactly unless it is made on a later day. */
  lemma FoundOnTheDay(jobs: seq<Job>, w: Window, begun: Time, checked: Time)
    requires begun <= checked && HasJob(jobs, w, begun) && NoneLater(jobs, w, begun)
    ensures HasJob(jobs, w, checked) <==> w.recurrence.Once? || begun / DAY == checked / DAY
  {
    if w.recurrence.Once? || begun / DAY == checked / DAY {
      SameCycleSameJobs(jobs, w, begun, checked);
    } else {
      assert begun / DAY < checked / DAY;
      assert CycleStart(w, checked) >= (checked / DAY) * DAY;
      forall i | 0 <= i < |jobs| && BelongsTo(jobs[i], w) ensures jobs[i].created < CycleStart(w, checked) {
        assert jobs[i].created < (jobs[i].created / DAY + 1) * DAY;
      }
    }
  }

  // ---------------------------------------------------------------------------
  // The jobs of one window
  // ---------------------------------------------------------------------------

  function JobsOf(jobs: seq<Job>, w: Window): seq<Job> {
    if jobs == [] then []
    else
      var last := jobs[|jobs| - 1];
      JobsOf(jobs[..|jobs| - 1], w) + if BelongsTo(last, w) then [last] else []
  }

  lemma JobsOfMore(jobs: seq<Job>, job: Job, w: Window)
    ensures JobsOf(jobs + [job], w) == JobsOf(jobs, w) + if BelongsTo(job, w) then [job] else []
  {
    assert (jobs + [job])[..|jobs|] == jobs;
  }

  /** Whether a window has a job depends on its own jobs. */
  lemma {:induction false} HasJobOf(jobs: seq<Job>, w: Window, t: Time)
    ensures HasJob(jobs, w, t) <==> HasJob(JobsOf(jobs, w), w, t)
    decreases |jobs|
  {
    hide CycleStart, HasJob;
    if jobs != [] {
      var front, last := jobs[..|jobs| - 1], jobs[|jobs| - 1];
      assert jobs == front + [last];
      HasJobOf(front, w, t);
      HasJobMore(front, last, w, t);
      HasJobMore(JobsOf(front, w), last, w, t);
      assert JobsOf(front, w) + [] == JobsOf(front, w);
    }
  }

  lemma HasJobMore(jobs: seq<Job>, job: Job, w: Window, t: Time)
    ensures HasJob(jobs + [job], w, t) <==> HasJob(jobs, w, t) || (BelongsTo(job, w) && job.created >= CycleStart(w, t))
  {
    hide CycleStart;
    var more := jobs + [job];
    assert more[|jobs|] == job;
    if HasJob(jobs, w, t) {
      var i :| 0 <= i < |jobs| && BelongsTo(jobs[i], w) && jobs[i].created >= CycleStart(w, t);
      assert more[i] == jobs[i];
    }
  }

  /** What a tick does for one window. */
  predicate Creates(calendar: Calendar, jobs: seq<Job>, w: Window, begun: Time, visit: Visit) {
    Selected(calendar, w, begun) && visit.pending && visit.stored && !HasJob(jobs, w, visit.checked)
  }

  lemma {:induction false} TickedForWindow(calendar: Calendar, jobs: seq<Job>, ws: seq<Window>, e: Event, n: nat)
    requires e.Tick? && DistinctIds(ws) && n < |ws|
    ensures JobsOf(Ticked(calendar, jobs, ws, e.begun, e.visits), ws[n])
            == JobsOf(jobs, ws[n])
               + if Creates(calendar, jobs, ws[n], e.begun, e.visits(n))
                 then [Job(ws[n].id, ws[n].host, e.visits(n).created, true)] else []
    decreases |ws|
  {
    hide Open, HasJob, JobsOf;
    var last, w := |ws| - 1, ws[n];
    var before := Ticked(calendar, jobs, ws[..last], e.begun, e.visits);
    var visit := e.visits(last);
    var job := Job(ws[last].id, ws[last].host, visit.created, true);
    JobsOfMore(before, job, w);
    if n < last {
      TickedForWindow(calendar, jobs, ws[..last], e, n);
    } else {
      OthersTicked(calendar, jobs, ws, last, e, n);
      HasJobOf(before, w, visit.checked);
      HasJobOf(jobs, w, visit.checked);
    }
  }

  /** A tick over other windows leaves the jobs of a window alone. */
  lemma {:induction false} OthersTicked(calendar: Calendar, jobs: seq<Job>, ws: seq<Window>, k: nat, e: Event, n: nat)
    requires e.Tick? && DistinctIds(ws) && k <= n < |ws|
    ensures JobsOf(Ticked(calendar, jobs, ws[..k], e.begun, e.visits), ws[n]) == JobsOf(jobs, ws[n])
    decreases k
  {
    hide Open, HasJob, JobsOf;
    if k > 0 {
      OthersTicked(calendar, jobs, ws, k - 1, e, n);
      assert ws[..k][..k - 1] == ws[..k - 1];
      var before := Ticked(calendar, jobs, ws[..k - 1], e.begun, e.visits);
      var visit := e.visits(k - 1);
      JobsOfMore(before, Job(ws[k - 1].id, ws[k - 1].host, visit.created, true), ws[n]);
    }
  }

  // ---------------------------------------------------------------------------
  // Second jobs for one opening, over any run
  // ---------------------------------------------------------------------------

  /** Nothing of the event is later than `t`. */
  ghost predicate EndsBy(e: Event, t: Time) {
    match e
    case Tick(_, visits) => forall i: nat :: visits(i).created <= t
    case UserJob(job) => job.created <= t
  }

  predicate CreatedBy(jobs: seq<Job>, t: Time) {
    forall i :: 0 <= i < |jobs| ==> jobs[i].created <= t
  }

  lemma {:induction false} TickCreatesBy(calendar: Calendar, jobs: seq<Job>, ws: seq<Window>, e: Event, t: Time)
    requires e.Tick? && EndsBy(e, t) && CreatedBy(jobs, t)
    ensures CreatedBy(Ticked(calendar, jobs, ws, e.begun, e.visits), t)
    decreases |ws|
  {
    hide Open, HasJob;
    if ws != [] {
      TickCreatesBy(calendar, jobs, ws[..|ws| - 1], e, t);
    }
  }

  lemma {:induction false} RunCreatesBy(calendar: Calendar, ws: seq<Window>, events: seq<Event>, t: Time)
    requires forall e :: e in events ==> EndsBy(e, t)
    ensures CreatedBy(Run(calendar, ws, events), t)
    decreases |events|
  {
    hide Ticked;
    if events != [] {
      var front, e := events[..|events| - 1], events[|events| - 1];
      RunCreatesBy(calendar, ws, front, t);
      if e.Tick? {
        TickCreatesBy(calendar, Run(calendar, ws, front), ws, e, t);
      }
    }
  }

  /** The tick gives the window another job. */
  predicate AddsJobFor(calendar: Calendar, ws: seq<Window>, events: seq<Event>, e: Event, w: Window) {
    |JobsOf(Run(calendar, ws, events + [e]), w)| > |JobsOf(Run(calendar, ws, events), w)|
  }

  /**
    A tick after any run, on a clock that does not run backwards: a window that has a
    job since the start of its opening gets a second one exactly if it is selected,
    patches are pending, the insert succeeds, the window recurs, and the tick's check
    is made on a later day than its query.
  */
  lemma RepeatsExactlyPastMidnight(calendar: Calendar, ws: seq<Window>, events: seq<Event>, e: Event, n: nat)
    requires DistinctIds(ws) && n < |ws| && e.Tick? && InOrder(e)
    requires forall f :: f in events ==> EndsBy(f, e.begun)
    requires HasJob(Run(calendar, ws, events), ws[n], e.begun)
    ensures AddsJobFor(calendar, ws, events, e, ws[n])
            <==> && Selected(calendar, ws[n], e.begun) && e.visits(n).pending && e.visits(n).stored
                 && !ws[n].recurrence.Once? && e.begun / DAY < e.visits(n).checked / DAY
  {
    hide Open, Selected, CycleStart, HasJob;
    var before, w := Run(calendar, ws, events), ws[n];
    RunCreatesBy(calendar, ws, events, e.begun);
    RunsOneMore(calendar, ws, events, e);
    TickedForWindow(calendar, before, ws, e, n);
    FoundOnTheDay(before, w, e.begun, e.visits(n).checked);
  }

  lemma RunsOneMore(calendar: Calendar, ws: seq<Window>, events: seq<Event>, e: Event)
    requires e.Tick?
    ensures Run(calendar, ws, events + [e]) == Ticked(calendar, Run(calendar, ws, events), ws, e.begun, e.visits)
  {
    assert (events + [e])[..|events|] == events;
  }

  lemma MoreJobs(jobs: seq<Job>, more: seq<Job>, w: Window, t: Time)
    requires HasJob(jobs, w, t) && jobs <= more
    ensures HasJob(more, w, t)
  {
    var i :| 0 <= i < |jobs| && BelongsTo(jobs[i], w) && jobs[i].created >= CycleStart(w, t);
    assert more[i] == jobs[i];
  }

  lemma VisitServes(calendar: Calendar, jobs: seq<Job>, w: Window, begun: Time, visit: Visit)
    requires Open(calendar, w, begun) && visit.pending && visit.stored
    requires begun <= visit.checked <= visit.created
    requires begun / DAY == visit.checked / DAY == visit.created / DAY
    ensures HasJob(Visited(jobs, w, visit), w, begun)
  {
    OpenHasStarted(calendar, w, begun);
    SameDaySameCycle(w, begun, visit.checked);
    hide CycleStart, Open;
    if !HasJob(jobs, w, visit.checked) {
      assert Visited(jobs, w, visit)[|jobs|] == Job(w.id, w.host, visit.created, true);
    }
  }

  /** After a tick every selected window with pending patches has a job in its cycle, if the insert succeeded. */
  lemma {:induction false} TickServesWindows(calendar: Calendar, jobs: seq<Job>, ws: seq<Window>, e: Event, n: nat)
    requires e.Tick? && InOrder(e) && OnOneDay(e)
    requires n < |ws| && Selected(calendar, ws[n], e.begun) && e.visits(n).pending && e.visits(n).stored
    ensures HasJob(Ticked(calendar, jobs, ws, e.begun, e.visits), ws[n], e.begun)
    decreases |ws|
  {
    hide Open, HasJob, CycleStart;
    var last := |ws| - 1;
    var before := Ticked(calendar, jobs, ws[..last], e.begun, e.visits);
    if n == last {
      VisitServes(calendar, before, ws[n], e.begun, e.visits(n));
    } else {
      TickServesWindows(calendar, jobs, ws[..last], e, n);
      MoreJobs(before, Ticked(calendar, jobs, ws, e.begun, e.visits), ws[n], e.begun);
    }
  }

  lemma UserJobsAreNotAuto(e: Event)
    requires InOrder(e) && e.UserJob?
    ensures !e.job.auto
  {
  }

  // ---------------------------------------------------------------------------
  // A tick that runs past midnight
  // ---------------------------------------------------------------------------

  /** A window from 23:50 to 23:59. */
  function LateWindow(): Window {
    Window(0, 0, true, true, true, Daily, 1430 * MINUTE, 9)
  }

  function Visiting(checked: Time, created: Time): nat -> Visit {
    i => Visit(true, checked, created, true)
  }

  /** Two ticks while the window is open, the second delayed past midnight. */
  function LateTicks(): seq<Event> {
    [Tick(1430 * MINUTE, Visiting(1430 * MINUTE, 1430 * MINUTE)),
     Tick(1438 * MINUTE, Visiting(DAY, DAY))]
  }

  /** A delayed tick looks for jobs of the next cycle, so the window gets a second job for one opening. */
  lemma DelayedTickRepeatsJob(calendar: Calendar)
    ensures var w := LateWindow();
            && (forall e :: e in LateTicks() ==> InOrder(e))
            && CycleStart(w, 1430 * MINUTE) == CycleStart(w, 1438 * MINUTE)
            && Run(calendar, [w], LateTicks()) == [Job(0, 0, 1430 * MINUTE, true), Job(0, 0, DAY, true)]
  {
    var w := LateWindow();
    var e0, e1 := LateTicks()[0], LateTicks()[1];
    var job := Job(0, 0, 1430 * MINUTE, true);
    assert LateTicks()[..1] == [e0] && [e0][..0] == [];
    assert [w][..0] == [];
    assert Open(calendar, w, 1430 * MINUTE) && Open(calendar, w, 1438 * MINUTE);
    assert !HasJob([], w, 1430 * MINUTE);
    assert Ticked(calendar, [], [w], e0.begun, e0.visits) == [job];
    assert Run(calendar, [w], [e0]) == [job];
    assert !HasJob([job], w, DAY);
    assert Ticked(calendar, [job], [w], e1.begun, e1.visits) == [job, Job(0, 0, DAY, true)];
  }
}
