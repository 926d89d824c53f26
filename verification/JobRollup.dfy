/**
  The two rules that roll host statuses up into the parent job: the executor's
  `sync_job_status` and the WS relay's `update_parent_job_status`. Both work on
  the counts of one SELECT.
*/
module JobRollup {
  import opened Wrappers
  import opened JobRows

  function Statuses(rows: seq<HostRow>): (statuses: seq<Status>)
    ensures |statuses| == |rows|
    ensures forall r :: 0 <= r < |rows| ==> statuses[r] == rows[r].status
  {
    seq(|rows|, r requires 0 <= r < |rows| => rows[r].status)
  }

  /** COUNT(*) FILTER (WHERE status = s) */
  function Count(statuses: seq<Status>, s: Status): nat {
    if statuses == [] then 0
    else (if statuses[0] == s then 1 else 0) + Count(statuses[1..], s)
  }

  /** The executor's rule; `None` where it returns without touching the parent. */
  function ExecutorRollup(statuses: seq<Status>): Option<Status> {
    var total := |statuses|;
    if Count(statuses, Running) > 0 || Count(statuses, Pending) > 0
       || Count(statuses, Queued) > 0 || Count(statuses, WaitingHealthCheck) > 0
    then Some(Running)
    else if total > 0 && Count(statuses, Succeeded) == total then Some(Succeeded)
    else if total > 0 && Count(statuses, Cancelled) == total then Some(Cancelled)
    else if Count(statuses, Failed) > 0 then Some(Failed)
    else None
  }

  /** The relay's first query: how many hosts are still open. */
  function OpenCount(statuses: seq<Status>): nat {
    Count(statuses, Queued) + Count(statuses, Pending)
    + Count(statuses, Running) + Count(statuses, WaitingHealthCheck)
  }

  /** The relay's rule, applied once no host is open. */
  function RelayRollup(statuses: seq<Status>): Status {
    if Count(statuses, Failed) > 0 then Failed else Succeeded
  }

  predicate All(statuses: seq<Status>, s: Status) {
    forall i :: 0 <= i < |statuses| ==> statuses[i] == s
  }

  lemma {:induction false} CountMeaning(statuses: seq<Status>, s: Status)
    ensures Count(statuses, s) <= |statuses|
    ensures Count(statuses, s) > 0 <==> s in statuses
    ensures Count(statuses, s) == |statuses| <==> All(statuses, s)
  {
    if statuses != [] {
      CountMeaning(statuses[1..], s);
      assert statuses == [statuses[0]] + statuses[1..];
    }
  }

  predicate Open(statuses: seq<Status>) {
    exists s :: s in statuses && !s.Terminal()
  }

  lemma OpenCountMeaning(statuses: seq<Status>)
    ensures OpenCount(statuses) > 0 <==> Open(statuses)
  {
    CountMeaning(statuses, Queued);
    CountMeaning(statuses, Pending);
    CountMeaning(statuses, Running);
    CountMeaning(statuses, WaitingHealthCheck);
  }

  /** What the executor's chain of counts decides, said without counting. */
  lemma ExecutorRollupMeaning(statuses: seq<Status>)
    ensures ExecutorRollup(statuses) == Some(Running) <==> Open(statuses)
    ensures ExecutorRollup(statuses) == Some(Succeeded)
            <==> statuses != [] && All(statuses, Succeeded)
    ensures ExecutorRollup(statuses) == Some(Cancelled)
            <==> statuses != [] && All(statuses, Cancelled)
    ensures ExecutorRollup(statuses) == Some(Failed)
            <==> !Open(statuses) && Failed in statuses
    ensures ExecutorRollup(statuses) == None
            <==> !Open(statuses) && Failed !in statuses
                 && (statuses == [] || (Succeeded in statuses && Cancelled in statuses))
    ensures ExecutorRollup(statuses) in
              {None, Some(Running), Some(Succeeded), Some(Cancelled), Some(Failed)}
  {
    OpenCountMeaning(statuses);
    CountMeaning(statuses, Succeeded);
    CountMeaning(statuses, Cancelled);
    CountMeaning(statuses, Failed);
    if !Open(statuses) && Failed !in statuses {
      assert forall i :: 0 <= i < |statuses| ==> statuses[i] in statuses;
      assert All(statuses, Succeeded) <==> Cancelled !in statuses;
      assert All(statuses, Cancelled) <==> Succeeded !in statuses;
    }
  }

  lemma RelayRollupMeaning(statuses: seq<Status>)
    ensures RelayRollup(statuses) == (if Failed in statuses then Failed else Succeeded)
  {
    CountMeaning(statuses, Failed);
  }

  /**
    The two rules are not the same rule. On finished jobs they agree exactly
    when some host failed or no host was cancelled.
  */
  lemma RollupsAgree(statuses: seq<Status>)
    requires statuses != [] && !Open(statuses)
    ensures ExecutorRollup(statuses) == Some(RelayRollup(statuses))
            <==> Failed in statuses || Cancelled !in statuses
  {
    ExecutorRollupMeaning(statuses);
    RelayRollupMeaning(statuses);
    assert statuses[0] in statuses;
    forall s | s in statuses && Failed !in statuses && Cancelled !in statuses
      ensures s == Succeeded
    {
      assert s.Terminal();
    }
  }

  lemma OpenRows(rows: seq<HostRow>)
    ensures Open(Statuses(rows)) <==> !AllTerminal(rows)
  {
    if !AllTerminal(rows) {
      var r :| 0 <= r < |rows| && !rows[r].Terminal();
      assert Statuses(rows)[r] in Statuses(rows);
    }
  }
}
