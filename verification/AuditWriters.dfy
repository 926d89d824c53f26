/**
  Concurrent writers of the audit log. Each statement of `write_audit_row` and
  `repair_integrity` is one step; a transaction's own insert or update stays
  invisible to the others until it commits, and the advisory lock is held from
  its statement to the end of the transaction.
*/
module AuditWriters {
  import opened Wrappers
  import opened AuditChain
  import opened AuditLog

  datatype Stage =
    | Idle
    | Begun
    | Locked
    | HasRead(prev: string)      // an append that has read the last hash
    | HasInserted(row: Row)      // an append about to commit
    | HasFetched(rows: seq<Row>) // a repair that has fetched the table

  /** `log` is the committed table in commit order; `nextId` the id sequence. */
  datatype World = World(log: seq<Row>, holder: Option<nat>, stages: seq<Stage>, nextId: int)

  datatype Action =
    | Connect                    // one more client
    | Begin(i: nat)
    | Lock(i: nat)
    | ReadLast(i: nat)
    | Insert(i: nat, event: Event)
    | FetchAll(i: nat)
    | Commit(i: nat)
    | Abort(i: nat)

  /** ORDER BY id DESC LIMIT 1 */
  function Latest(rows: seq<Row>): (row: Row)
    requires rows != []
    ensures row in rows && forall r :: r in rows ==> r.id <= row.id
  {
    if |rows| == 1 then rows[0]
    else
      var best := Latest(rows[1..]);
      assert forall r :: r in rows ==> r == rows[0] || r in rows[1..];
      if rows[0].id > best.id then rows[0] else best
  }

  function LastHash(rows: seq<Row>): string {
    if rows == [] then "" else Latest(rows).rowHash
  }

  /**
    `exclusive` says whether the lock statement waits for the holder. It does; the
    other case is the log as it was written before the lock was introduced.
  */
  function Next(h: Hash, exclusive: bool, w: World, act: Action): World {
    match act
    case Connect => w.(stages := w.stages + [Idle])
    case Begin(i) => if In(w, i, Idle) then Move(w, i, Begun) else w
    case Lock(i) =>
      if In(w, i, Begun) && (w.holder.None? || !exclusive) then Move(w, i, Locked).(holder := Some(i)) else w
    case ReadLast(i) => if In(w, i, Locked) then Move(w, i, HasRead(LastHash(w.log))) else w
    case Insert(i, event) =>
      if i < |w.stages| && w.stages[i].HasRead? then
        Move(w, i, HasInserted(Chained(h, w.stages[i].prev, w.nextId, event))).(nextId := w.nextId + 1)
      else w
    case FetchAll(i) => if In(w, i, Locked) then Move(w, i, HasFetched(w.log)) else w
    case Commit(i) =>
      if i >= |w.stages| then w
      else
        (match w.stages[i]
         case HasInserted(row) => Release(w.(log := w.log + [row]), i)
         case HasFetched(rows) => Release(w.(log := Repaired(h, rows)), i)
         case _ => w)
    case Abort(i) => if i < |w.stages| then Release(w, i) else w
  }

  predicate In(w: World, i: nat, stage: Stage) {
    i < |w.stages| && w.stages[i] == stage
  }

  function Move(w: World, i: nat, stage: Stage): World
    requires i < |w.stages|
  {
    w.(stages := w.stages[i := stage])
  }

  /** The end of a transaction gives the lock back. */
  function Release(w: World, i: nat): World
    requires i < |w.stages|
  {
    Move(w, i, Idle).(holder := if w.holder == Some(i) then None else w.holder)
  }

  function Run(h: Hash, exclusive: bool, w: World, acts: seq<Action>): World
    decreases |acts|
  {
    if acts == [] then w else Run(h, exclusive, Next(h, exclusive, w, acts[0]), acts[1..])
  }

  // ---------------------------------------------------------------------------
  // With the lock
  // ---------------------------------------------------------------------------

  predicate Ascending(rows: seq<Row>, nextId: int) {
    && (forall i, j :: 0 <= i < j < |rows| ==> rows[i].id < rows[j].id)
    && (forall i :: 0 <= i < |rows| ==> rows[i].id < nextId)
  }

  /** What a transaction has read or written so far fits the committed log. */
  predicate StageOk(h: Hash, w: World, i: nat)
    requires i < |w.stages|
  {
    && (w.stages[i].Idle? || w.stages[i].Begun? <==> w.holder != Some(i))
    && match w.stages[i]
       case HasRead(prev) => prev == PrevHash(w.log, |w.log|)
       case HasInserted(row) =>
         && row == Chained(h, PrevHash(w.log, |w.log|), row.id, row.event)
         && row.id < w.nextId
         && forall r :: 0 <= r < |w.log| ==> w.log[r].id < row.id
       case HasFetched(rows) => rows == w.log
       case _ => true
  }

  /** The log is in id order, and every transaction fits it; nothing is said of its hashes. */
  predicate Orderly(h: Hash, w: World) {
    && Ascending(w.log, w.nextId)
    && (w.holder.Some? ==> w.holder.value < |w.stages|)
    && forall i :: 0 <= i < |w.stages| ==> StageOk(h, w, i)
  }

  /** In a log committed in id order the latest row is the last one. */
  lemma LatestIsLast(rows: seq<Row>, nextId: int)
    requires Ascending(rows, nextId)
    ensures LastHash(rows) == PrevHash(rows, |rows|)
  {
    if rows != [] {
      var k :| 0 <= k < |rows| && rows[k] == Latest(rows);
      assert rows[|rows| - 1] in rows;
    }
  }

  /** The committed log has only been added to. */
  predicate Extends(before: seq<Row>, after: seq<Row>) {
    |before| <= |after| && after[..|before|] == before
  }

  /** Committed rows keep their ids and events, whatever becomes of their hashes. */
  predicate KeepsEvents(before: seq<Row>, after: seq<Row>) {
    && |before| <= |after|
    && forall i :: 0 <= i < |before| ==> after[i].id == before[i].id && after[i].event == before[i].event
  }

  /** Only the lock holder is past its lock statement. */
  lemma OthersAreIdle(h: Hash, w: World, i: nat)
    requires Orderly(h, w) && i < |w.stages|
    ensures !w.stages[i].Idle? && !w.stages[i].Begun? ==>
              w.holder == Some(i)
              && forall j :: 0 <= j < |w.stages| && j != i ==> w.stages[j].Idle? || w.stages[j].Begun?
  {
    assert StageOk(h, w, i);
    forall j | 0 <= j < |w.stages| && j != i && w.holder == Some(i)
      ensures w.stages[j].Idle? || w.stages[j].Begun?
    {
      assert StageOk(h, w, j);
    }
  }

  /** The action commits a repair. */
  predicate CommitsRepair(w: World, act: Action) {
    act.Commit? && act.i < |w.stages| && w.stages[act.i].HasFetched?
  }

  predicate CommitsRow(w: World, act: Action) {
    act.Commit? && act.i < |w.stages| && w.stages[act.i].HasInserted?
  }

  /** The committed log after an action: repaired, longer by a row linked to its last, or the same. */
  predicate LogMoves(h: Hash, w: World, act: Action) {
    var log := Next(h, true, w, act).log;
    if CommitsRepair(w, act) then log == Repaired(h, w.log)
    else if CommitsRow(w, act) then
      var row := w.stages[act.i].row;
      log == w.log + [Chained(h, PrevHash(w.log, |w.log|), row.id, row.event)]
    else log == w.log
  }

  lemma CommitOk(h: Hash, w: World, i: nat)
    requires Orderly(h, w) && i < |w.stages|
    ensures Orderly(h, Next(h, true, w, Commit(i))) && LogMoves(h, w, Commit(i))
  {
    hide RowHash, Linked, Repaired, Intact;
    OthersAreIdle(h, w, i);
    assert StageOk(h, w, i);
    var w' := Next(h, true, w, Commit(i));
    forall j | 0 <= j < |w'.stages| ensures StageOk(h, w', j) {
      assert StageOk(h, w, j);
    }
  }

  /** An action that leaves the committed log as it is. */
  lemma MoveOk(h: Hash, w: World, act: Action)
    requires Orderly(h, w) && !act.Commit? && !act.Connect? && act.i < |w.stages|
    ensures Orderly(h, Next(h, true, w, act)) && Next(h, true, w, act).log == w.log
  {
    hide RowHash, Linked, Repaired, Intact, LastHash, PrevHash;
    var w' := Next(h, true, w, act);
    LatestIsLast(w.log, w.nextId);
    OthersAreIdle(h, w, act.i);
    assert StageOk(h, w, act.i);
    forall j | 0 <= j < |w'.stages| ensures StageOk(h, w', j) {
      assert StageOk(h, w, j);
    }
  }

  lemma ConnectOk(h: Hash, w: World)
    requires Orderly(h, w)
    ensures Orderly(h, Next(h, true, w, Connect))
  {
    hide RowHash, Linked, Repaired, Intact;
    var w' := Next(h, true, w, Connect);
    forall j | 0 <= j < |w'.stages| ensures StageOk(h, w', j) {
      if j < |w.stages| {
        assert StageOk(h, w, j);
      }
    }
  }

  lemma NextOk(h: Hash, w: World, act: Action)
    requires Orderly(h, w)
    ensures Orderly(h, Next(h, true, w, act)) && LogMoves(h, w, act)
  {
    hide RowHash, Linked, Repaired, Orderly, Intact;
    match act
    case Connect => ConnectOk(h, w);
    case Commit(i) =>
      if i < |w.stages| {
        CommitOk(h, w, i);
      }
    case _ =>
      if act.i < |w.stages| {
        MoveOk(h, w, act);
      }
  }

  /** A row linked to the last one leaves a log as intact or broken as it was. */
  lemma AppendDecidesNothing(h: Hash, rows: seq<Row>, id: int, e: Event)
    ensures Intact(h, rows + [Chained(h, PrevHash(rows, |rows|), id, e)]) <==> Intact(h, rows)
  {
    hide RowHash, Linked, Intact;
    var longer := rows + [Chained(h, PrevHash(rows, |rows|), id, e)];
    if Intact(h, rows) {
      IntactExtends(h, rows, id, e);
    }
    if Intact(h, longer) {
      IntactPrefix(h, longer, |rows|);
      assert longer[..|rows|] == rows;
    }
  }

  /** What an action means for the log. */
  lemma LogStep(h: Hash, w: World, act: Action)
    requires LogMoves(h, w, act)
    ensures var log := Next(h, true, w, act).log;
            && (Intact(h, log) <==> Intact(h, w.log) || CommitsRepair(w, act))
            && KeepsEvents(w.log, log)
            && (Intact(h, w.log) ==> Extends(w.log, log))
  {
    hide RowHash, Linked, Repaired, Intact, Next;
    if CommitsRepair(w, act) {
      RepairOfIntact(h, w.log);
      assert Intact(h, Repaired(h, w.log));
    } else if CommitsRow(w, act) {
      var row := w.stages[act.i].row;
      AppendDecidesNothing(h, w.log, row.id, row.event);
    }
  }

  /** Some repair commits in the run. */
  predicate Repairs(h: Hash, w: World, acts: seq<Action>)
    decreases |acts|
  {
    acts != [] && (CommitsRepair(w, acts[0]) || Repairs(h, Next(h, true, w, acts[0]), acts[1..]))
  }

  /**
    However many writers and repairs interleave, from any log in id order: it stays in
    id order and keeps its rows' ids and events; and it is intact at the end exactly
    if it was at the start or some repair has committed.
  */
  lemma {:induction false} IntactIffStartedOrRepaired(h: Hash, w: World, acts: seq<Action>)
    requires Orderly(h, w)
    ensures var after := Run(h, true, w, acts);
            && Orderly(h, after) && KeepsEvents(w.log, after.log)
            && (Intact(h, after.log) <==> Intact(h, w.log) || Repairs(h, w, acts))
    decreases |acts|
  {
    hide Orderly, Intact, Next, LogMoves;
    if acts != [] {
      NextOk(h, w, acts[0]);
      LogStep(h, w, acts[0]);
      IntactIffStartedOrRepaired(h, Next(h, true, w, acts[0]), acts[1..]);
    }
  }

  /** A log that is intact stays so after every step, and no committed row is lost or changed. */
  lemma {:induction false} LogStaysIntact(h: Hash, w: World, acts: seq<Action>)
    requires Orderly(h, w) && Intact(h, w.log)
    ensures var after := Run(h, true, w, acts);
            Orderly(h, after) && Intact(h, after.log) && Extends(w.log, after.log)
    decreases |acts|
  {
    hide Orderly, Intact, Next, LogMoves;
    if acts != [] {
      NextOk(h, w, acts[0]);
      LogStep(h, w, acts[0]);
      LogStaysIntact(h, Next(h, true, w, acts[0]), acts[1..]);
    }
  }

  // ---------------------------------------------------------------------------
  // Without it
  // ---------------------------------------------------------------------------

  const RACE := [Begin(0), Begin(1), Lock(0), Lock(1), ReadLast(0), ReadLast(1)]

  lemma {:induction false} RunSplit(h: Hash, exclusive: bool, w: World, first: seq<Action>, more: seq<Action>)
    ensures Run(h, exclusive, w, first + more) == Run(h, exclusive, Run(h, exclusive, w, first), more)
    decreases |first|
  {
    if first == [] {
      assert first + more == more;
    } else {
      assert (first + more)[0] == first[0] && (first + more)[1..] == first[1..] + more;
      RunSplit(h, exclusive, Next(h, exclusive, w, first[0]), first[1..], more);
    }
  }

  /** Two clients both read the last hash of the empty log. */
  lemma BothRead(h: Hash)
    ensures var start := World([], None, [Idle, Idle], 1);
            Run(h, false, start, RACE) == World([], Some(1), [HasRead(""), HasRead("")], 1)
  {
    var w0 := World([], None, [Idle, Idle], 1);
    var w1 := Next(h, false, w0, Begin(0));
    var w2 := Next(h, false, w1, Begin(1));
    assert w2.stages == [Begun, Begun];
    var w3 := Next(h, false, w2, Lock(0));
    var w4 := Next(h, false, w3, Lock(1));
    assert w4.stages == [Locked, Locked] && w4.holder == Some(1);
    var w5 := Next(h, false, w4, ReadLast(0));
    var w6 := Next(h, false, w5, ReadLast(1));
    assert w6.stages == [HasRead(""), HasRead("")];
    assert RACE[1..] == [Begin(1), Lock(0), Lock(1), ReadLast(0), ReadLast(1)];
    assert RACE[1..][1..] == [Lock(0), Lock(1), ReadLast(0), ReadLast(1)];
    assert RACE[1..][1..][1..] == [Lock(1), ReadLast(0), ReadLast(1)];
    assert RACE[1..][1..][1..][1..] == [ReadLast(0), ReadLast(1)];
    assert RACE[1..][1..][1..][1..][1..] == [ReadLast(1)];
    assert RACE[1..][1..][1..][1..][1..][1..] == [];
  }

  lemma BothCommit(h: Hash, e: Event)
    ensures var finish := [Insert(0, e), Insert(1, e), Commit(0), Commit(1)];
            Run(h, false, World([], Some(1), [HasRead(""), HasRead("")], 1), finish).log
            == [Chained(h, "", 1, e), Chained(h, "", 2, e)]
  {
    hide RowHash;
    var finish := [Insert(0, e), Insert(1, e), Commit(0), Commit(1)];
    var w0 := World([], Some(1), [HasRead(""), HasRead("")], 1);
    var w1 := Next(h, false, w0, finish[0]);
    var w2 := Next(h, false, w1, finish[1]);
    assert w2.stages == [HasInserted(Chained(h, "", 1, e)), HasInserted(Chained(h, "", 2, e))];
    var w3 := Next(h, false, w2, finish[2]);
    var w4 := Next(h, false, w3, finish[3]);
    assert w4.log == [Chained(h, "", 1, e), Chained(h, "", 2, e)];
    assert finish[1..] == [Insert(1, e), Commit(0), Commit(1)];
    assert finish[1..][1..] == [Commit(0), Commit(1)];
    assert finish[1..][1..][1..] == [Commit(1)];
    assert Run(h, false, w3, [Commit(1)]) == Run(h, false, w4, []);
    assert Run(h, false, w2, [Commit(0), Commit(1)]) == Run(h, false, w3, [Commit(1)]);
    assert Run(h, false, w1, finish[1..]) == Run(h, false, w2, [Commit(0), Commit(1)]);
  }

  /** If the lock did not exclude, two appends could break the chain. */
  lemma LockIsNeeded(h: Hash, e: Event)
    requires h("" + Text(e)) != ""
    ensures exists acts :: !Intact(h, Run(h, false, World([], None, [Idle, Idle], 1), acts).log)
  {
    hide Text;
    BothRead(h);
    BothCommit(h, e);
    var finish := [Insert(0, e), Insert(1, e), Commit(0), Commit(1)];
    RunSplit(h, false, World([], None, [Idle, Idle], 1), RACE, finish);
    assert !Linked(h, [Chained(h, "", 1, e), Chained(h, "", 2, e)], 1);
  }
}
