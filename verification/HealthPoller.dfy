/** Host health: revocation lists, the failure counter, and the audit trail of list changes. */
module HealthPoller {
  import opened Wrappers

  const FAILURE_THRESHOLD := 3
  const HOUR := 3600

  datatype Health = Healthy | Degraded | Unreachable

  /** The state of an agent's certificate revocation list, as it reports it. */
  datatype Crl = Valid | Expired | Missing | Invalid | Unknown(name: string)

  /** How a health request ends. */
  datatype Reply = Answered(crl: Option<Crl>) | NoClient | TimedOut | Refused | Failed

  /** One poll of a host and its time in seconds. */
  datatype Poll = Poll(reply: Reply, now: int)

  datatype AuditEvent =
    | StatusChanged(before: Option<Crl>, after: Crl)
    | StaleDetected
    | InvalidDetected

  // ---------------------------------------------------------------------------
  // The rules
  // ---------------------------------------------------------------------------

  function Natural(reply: Reply): Health {
    match reply
    case Answered(_) => Healthy
    case NoClient | TimedOut | Refused => Unreachable
    case Failed => Degraded
  }

  function Reported(reply: Reply): Option<Crl> {
    if reply.Answered? then reply.crl else None
  }

  /** `apply_crl_health_rules` */
  function ApplyCrlRules(natural: Health, crl: Option<Crl>, age: int): Health {
    match crl
    case None => natural
    case Some(Invalid) => Unreachable
    case Some(Expired) => if natural == Healthy then Degraded else natural
    case Some(Missing) => if age > 24 * HOUR && natural == Healthy then Degraded else natural
    case Some(_) => natural
  }

  /** The counter and the status that `apply_hysteresis` gives. */
  datatype Adjusted = Adjusted(failures: int, status: Health)

  /** `apply_hysteresis` */
  function ApplyHysteresis(natural: Health, effective: Health, failures: int): Adjusted {
    var now := match natural
      case Healthy => 0
      case Unreachable => failures + 1
      case Degraded => failures;
    Adjusted(now,
             if now >= FAILURE_THRESHOLD then effective
             else if natural == Unreachable && effective == Unreachable then Degraded
             else effective)
  }

  function CrlEvents(before: Option<Crl>, after: Crl): seq<AuditEvent> {
    (if before != Some(after) then [StatusChanged(before, after)] else [])
    + match after {
        case Expired => [StaleDetected]
        case Invalid => [InvalidDetected]
        case _ => []
      }
  }

  // ---------------------------------------------------------------------------
  // Hosts
  // ---------------------------------------------------------------------------

  /** The columns of a host that polls change, and the events logged for it. */
  datatype State = State(failures: int, status: Health, crl: Option<Crl>, events: seq<AuditEvent>)

  function Polled(st: State, poll: Poll, registered: int): State {
    var natural, crl := Natural(poll.reply), Reported(poll.reply);
    var adjusted := ApplyHysteresis(natural, ApplyCrlRules(natural, crl, poll.now - registered), st.failures);
    State(adjusted.failures, adjusted.status,
          if crl.Some? then crl else st.crl,
          if crl.Some? then st.events + CrlEvents(st.crl, crl.value) else st.events)
  }

  class Host {
    const registered: int
    var failures: int
    var status: Health
    var crl: Option<Crl>
    var events: seq<AuditEvent>

    function Columns(): State
      reads this
    {
      State(failures, status, crl, events)
    }

    constructor (registered: int, status: Health)
      ensures this.registered == registered && Columns() == State(0, status, None, [])
    {
      this.registered := registered;
      this.status := status;
      failures, crl, events := 0, None, [];
    }

    /** `poll_host_health` */
    method PollHealth(poll: Poll) returns (reported: Health)
      modifies this
      ensures Columns() == Polled(old(Columns()), poll, registered)
      ensures reported == status
      ensures failures == if IsHealthy(poll) then 0 else old(failures) + if IsUnreachable(poll) then 1 else 0
      ensures status == Unreachable
              <==> poll.reply == Answered(Some(Invalid)) || (IsUnreachable(poll) && failures >= FAILURE_THRESHOLD)
      ensures status == Healthy
              <==> IsHealthy(poll) && poll.reply != Answered(Some(Invalid)) && !CrlDegrades(poll, registered)
      ensures crl == if IsHealthy(poll) && poll.reply.crl.Some? then poll.reply.crl else old(crl)
      ensures old(events) <= events
      ensures crl != old(crl) <==>
                exists k :: |old(events)| <= k < |events| && events[k].StatusChanged?
                            && events[k].before == old(crl) && Some(events[k].after) == crl
    {
      var natural := Natural(poll.reply);
      var seen := Reported(poll.reply);
      var effective := ApplyCrlRules(natural, seen, poll.now - registered);
      var adjusted := ApplyHysteresis(natural, effective, failures);
      var before := crl;
      status, failures := adjusted.status, adjusted.failures;
      if seen.Some? {
        crl := seen;
        ghost var logged := |events|;
        events := events + CrlEvents(before, seen.value);
        assert crl != before ==> events[logged] == StatusChanged(before, seen.value);
      }
      return adjusted.status;
    }
  }

  // ---------------------------------------------------------------------------
  // Any sequence of polls
  // ---------------------------------------------------------------------------

  function Run(st: State, polls: seq<Poll>, registered: int): State {
    if polls == [] then st
    else Polled(Run(st, polls[..|polls| - 1], registered), polls[|polls| - 1], registered)
  }

  predicate IsHealthy(poll: Poll) {
    poll.reply.Answered?
  }

  predicate IsUnreachable(poll: Poll) {
    poll.reply.NoClient? || poll.reply.TimedOut? || poll.reply.Refused?
  }

  /** The position after the last healthy poll, or the start. */
  function SinceHealthy(polls: seq<Poll>): (from: nat)
    ensures from <= |polls|
    ensures from > 0 ==> IsHealthy(polls[from - 1])
    ensures forall i :: from <= i < |polls| ==> !IsHealthy(polls[i])
  {
    if polls == [] || IsHealthy(polls[|polls| - 1]) then |polls| else SinceHealthy(polls[..|polls| - 1])
  }

  /** The positions of the unreachable polls from a position on. */
  function UnreachableFrom(polls: seq<Poll>, from: nat): set<nat> {
    set i | from <= i < |polls| && IsUnreachable(polls[i])
  }

  lemma UnreachableNext(polls: seq<Poll>, poll: Poll, from: nat)
    requires from <= |polls|
    ensures UnreachableFrom(polls + [poll], from)
            == UnreachableFrom(polls, from) + if IsUnreachable(poll) then {|polls|} else {}
    ensures |UnreachableFrom(polls + [poll], from)|
            == |UnreachableFrom(polls, from)| + if IsUnreachable(poll) then 1 else 0
  {
    assert |polls| !in UnreachableFrom(polls, from);
  }

  /** From zero on, the counter is the number of unreachable polls since the last healthy one. */
  lemma {:induction false} CountsUnreachable(st: State, polls: seq<Poll>, registered: int)
    requires st.failures == 0
    ensures Run(st, polls, registered).failures == |UnreachableFrom(polls, SinceHealthy(polls))|
    decreases |polls|
  {
    if polls == [] {
      assert UnreachableFrom(polls, 0) == {};
    } else {
      var front, poll := polls[..|polls| - 1], polls[|polls| - 1];
      assert polls == front + [poll];
      CountsUnreachable(st, front, registered);
      if IsHealthy(poll) {
        assert UnreachableFrom(polls, |polls|) == {};
      } else {
        UnreachableNext(front, poll, SinceHealthy(front));
      }
    }
  }

  /** The answer's revocation list calls for a lower status. */
  predicate CrlDegrades(poll: Poll, registered: int) {
    poll.reply.Answered?
    && (poll.reply.crl == Some(Expired) || (poll.reply.crl == Some(Missing) && poll.now - registered > 24 * HOUR))
  }

  /**
    After any polls from zero: unreachable exactly for an invalid list or an
    unreachable poll that is at least the third since the last healthy one;
    healthy exactly for an answer with a list that is good enough.
  */
  lemma StatusAfterPolls(st: State, polls: seq<Poll>, registered: int)
    requires st.failures == 0 && polls != []
    ensures var last := polls[|polls| - 1];
            var status := Run(st, polls, registered).status;
            && (status == Unreachable
                <==> || last.reply == Answered(Some(Invalid))
                     || (IsUnreachable(last) && |UnreachableFrom(polls, SinceHealthy(polls))| >= FAILURE_THRESHOLD))
            && (status == Healthy
                <==> IsHealthy(last) && last.reply != Answered(Some(Invalid)) && !CrlDegrades(last, registered))
  {
    hide UnreachableFrom, SinceHealthy;
    CountsUnreachable(st, polls, registered);
  }

  // ---------------------------------------------------------------------------
  // The audit trail
  // ---------------------------------------------------------------------------

  /** The list state after the changes in a trail that starts from `crl`; none if a change does not fit. */
  function Replay(crl: Option<Crl>, events: seq<AuditEvent>): Option<Option<Crl>> {
    if events == [] then Some(crl)
    else
      var before := Replay(crl, events[..|events| - 1]);
      match events[|events| - 1]
      case StatusChanged(old_, new_) =>
        if before == Some(old_) && old_ != Some(new_) then Some(Some(new_)) else None
      case _ => before
  }

  lemma {:induction false} ReplayAppend(crl: Option<Crl>, a: seq<AuditEvent>, b: seq<AuditEvent>)
    requires Replay(crl, a).Some?
    ensures Replay(crl, a + b) == Replay(Replay(crl, a).value, b)
    decreases |b|
  {
    if b == [] {
      assert a + b == a;
    } else {
      assert (a + b)[..|a + b| - 1] == a + b[..|b| - 1];
      ReplayAppend(crl, a, b[..|b| - 1]);
    }
  }

  lemma ReplayCrlEvents(before: Option<Crl>, after: Crl)
    ensures Replay(before, CrlEvents(before, after)) == Some(Some(after))
  {
    var events := CrlEvents(before, after);
    if before != Some(after) {
      var change := StatusChanged(before, after);
      ReplayNothing(before);
      assert [change][..0] == [] && Replay(before, [change]) == Some(Some(after));
      if |events| == 2 {
        assert events[..1] == [change];
      }
    } else if |events| == 1 {
      assert events[..0] == [];
    }
  }

  /** The logged changes, each a change and each from where the last one led, lead to the stored state. */
  lemma {:induction false} TrailLeadsToStored(st: State, polls: seq<Poll>, registered: int)
    requires st.events == []
    ensures Replay(st.crl, Run(st, polls, registered).events) == Some(Run(st, polls, registered).crl)
    decreases |polls|
  {
    hide Replay, CrlEvents;
    if polls == [] {
      ReplayNothing(st.crl);
    } else {
      var front, poll := polls[..|polls| - 1], polls[|polls| - 1];
      TrailLeadsToStored(st, front, registered);
      var before := Run(st, front, registered);
      var crl := Reported(poll.reply);
      if crl.Some? {
        ReplayAppend(st.crl, before.events, CrlEvents(before.crl, crl.value));
        ReplayCrlEvents(before.crl, crl.value);
      }
    }
  }

  lemma ReplayNothing(crl: Option<Crl>)
    ensures Replay(crl, []) == Some(crl)
  {
  }
}
