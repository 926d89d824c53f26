/** Confirming a self-upgrade: a dropped connection is waited out, never failed on. */
module SelfUpgrade {
  import opened Wrappers
  import opened JobRows
  import opened JobProtocol

  /** After `k` earlier samples, this one leaves the loop running. */
  predicate Undecided(job: Job, k: nat, sample: VersionSample) {
    sample.NotYet? && Elapsed(job, k + 1) < job.reconnectTimeoutSecs
  }

  function Elapsed(job: Job, turns: nat): nat {
    if turns == 0 then 0 else Elapsed(job, turns - 1) + job.reconnectIntervalSecs
  }

  /** The first sample that decides. */
  predicate Decides(job: Job, samples: seq<VersionSample>, k: int) {
    0 <= k < |samples| && !Undecided(job, k, samples[k])
    && forall j :: 0 <= j < k ==> Undecided(job, j, samples[j])
  }

  lemma OneDecision(job: Job, samples: seq<VersionSample>, k: int)
    requires Decides(job, samples, k)
    ensures forall j :: Decides(job, samples, j) ==> j == k
  {
  }

  // ---------------------------------------------------------------------------
  // When the loop decides
  // ---------------------------------------------------------------------------

  /** So many turns, and at least one, use up the reconnect timeout. */
  predicate WaitedOut(job: Job, turns: nat) {
    turns > 0 && turns * job.reconnectIntervalSecs >= job.reconnectTimeoutSecs
  }

  lemma {:induction false} ElapsedTurns(job: Job, turns: nat)
    ensures Elapsed(job, turns) == turns * job.reconnectIntervalSecs
    decreases turns
  {
    if turns > 0 {
      ElapsedTurns(job, turns - 1);
    }
  }

  lemma {:induction false} FirstDecides(job: Job, samples: seq<VersionSample>, n: nat)
    requires n <= |samples|
    ensures (exists k :: k < n && Decides(job, samples, k)) <==> !forall j :: 0 <= j < n ==> Undecided(job, j, samples[j])
    decreases n
  {
    if n > 0 {
      FirstDecides(job, samples, n - 1);
      if forall j :: 0 <= j < n - 1 ==> Undecided(job, j, samples[j]) {
        assert !Undecided(job, n - 1, samples[n - 1]) ==> Decides(job, samples, n - 1);
      }
    }
  }

  /** Whatever the samples are, the loop has decided once the timeout is waited out. */
  lemma DecidedInTime(job: Job, samples: seq<VersionSample>)
    requires WaitedOut(job, |samples|)
    ensures exists k :: Decides(job, samples, k)
  {
    ElapsedTurns(job, |samples|);
    assert !Undecided(job, |samples| - 1, samples[|samples| - 1]);
    FirstDecides(job, samples, |samples|);
  }

  function Silence(turns: nat): (samples: seq<VersionSample>)
    ensures |samples| == turns && forall k :: 0 <= k < turns ==> samples[k].NotYet?
  {
    seq(turns, _ => NotYet)
  }

  lemma TurnsAddUp(turns: nat, more: nat, interval: nat)
    requires turns <= more
    ensures turns * interval <= more * interval
  {
  }

  /** A silent turn leaves the loop running as long as the timeout is not waited out by all turns. */
  lemma StillWaiting(job: Job, turns: nat, j: nat)
    requires j < turns && !WaitedOut(job, turns)
    ensures Undecided(job, j, NotYet)
  {
    hide Elapsed;
    ElapsedTurns(job, j + 1);
    TurnsAddUp(j + 1, turns, job.reconnectIntervalSecs);
  }

  /** On an agent that stays silent the loop decides exactly when the timeout is waited out. */
  lemma SilenceDecides(job: Job, turns: nat)
    ensures (exists k :: Decides(job, Silence(turns), k)) <==> WaitedOut(job, turns)
  {
    hide Undecided, WaitedOut;
    if WaitedOut(job, turns) {
      DecidedInTime(job, Silence(turns));
    } else {
      forall j: nat | j < turns ensures Undecided(job, j, Silence(turns)[j]) {
        StillWaiting(job, turns, j);
      }
    }
  }

  /** A silent agent is given up on sooner or later exactly if the interval is positive or the timeout zero. */
  lemma SilenceIsGivenUpOn(job: Job)
    ensures (exists turns: nat, k :: Decides(job, Silence(turns), k))
            <==> job.reconnectIntervalSecs > 0 || job.reconnectTimeoutSecs == 0
  {
    if job.reconnectIntervalSecs > 0 || job.reconnectTimeoutSecs == 0 {
      var turns := job.reconnectTimeoutSecs + 1;
      assert job.reconnectIntervalSecs > 0 ==> turns * job.reconnectIntervalSecs >= turns;
      SilenceDecides(job, turns);
    } else {
      forall turns: nat, k ensures !Decides(job, Silence(turns), k) {
        SilenceDecides(job, turns);
      }
    }
  }

  /**
    The loop of `reconnect_confirm_self_upgrade` over the samples it draws. It
    returns what to do next, or nothing if the samples ended undecided.
  */
  method ReconnectConfirm(job: Job, r: nat, samples: seq<VersionSample>) returns (next: Option<Task>)
    ensures next.None? <==> forall k :: 0 <= k < |samples| ==> Undecided(job, k, samples[k])
    ensures next.Some? ==> exists k :: Decides(job, samples, k)
    ensures WaitedOut(job, |samples|) ==> next.Some?
    ensures forall k :: Decides(job, samples, k) ==>
              next == Some(Confirmed(job, r, Elapsed(job, k), samples[k]))
  {
    if WaitedOut(job, |samples|) {
      DecidedInTime(job, samples);
    }
    var elapsed := 0;
    var k := 0;
    while k < |samples|
      invariant 0 <= k <= |samples| && elapsed == Elapsed(job, k)
      invariant forall j :: 0 <= j < k ==> Undecided(job, j, samples[j])
    {
      elapsed := elapsed + job.reconnectIntervalSecs;
      match samples[k] {
        case Landed(version) =>
          assert Decides(job, samples, k);
          OneDecision(job, samples, k);
          return Some(WriteSucceeded(r, Upgraded(version)));
        case Fatal(reason) =>
          assert Decides(job, samples, k);
          OneDecision(job, samples, k);
          return Some(ReadRetry(r, Raw(reason)));
        case NotYet =>
          if elapsed >= job.reconnectTimeoutSecs {
            assert Decides(job, samples, k);
            OneDecision(job, samples, k);
            return Some(ReadRetry(r, ReconnectTimedOut));
          }
      }
      k := k + 1;
    }
    return None;
  }

  /**
    A poll alone never fails a self-upgrade; and once confirming, the upgrade
    fails only on a fatal sample or when the whole budget has been waited out.
  */
  lemma UpgradeFailsOnlyAfterBudget(job: Job, r: nat, a: Answer, samples: seq<VersionSample>, k: int)
    requires job.kind.SelfUpgrade?
    ensures !Polled(job, r, a).ReadRetry?
    ensures Decides(job, samples, k) && Confirmed(job, r, Elapsed(job, k), samples[k]).ReadRetry?
            && !samples[k].Fatal? ==>
              Elapsed(job, k + 1) >= job.reconnectTimeoutSecs
              && forall j :: 0 <= j <= k ==> samples[j].NotYet?
  {
    if Decides(job, samples, k) {
      assert forall j :: 0 <= j < k ==> Undecided(job, j, samples[j]);
    }
  }
}
