/** Verification and repair of the audit log, as loops over its rows. */
module AuditLog {
  import opened AuditChain

  datatype IntegrityError = IntegrityError(rowId: int, expectedHash: string, actualHash: string)

  datatype IntegrityResult = IntegrityResult(intact: bool, rowsChecked: int, errors: seq<IntegrityError>)

  datatype RepairResult = RepairResult(
    intact: bool,
    rowsChecked: int,
    prevHashFixed: int,
    rowHashFixed: int,
    remainingErrors: seq<IntegrityError>)

  // ---------------------------------------------------------------------------
  // What verification reports
  // ---------------------------------------------------------------------------

  /** The errors reported for one row: a broken link, a wrong hash, or both. */
  function RowErrors(h: Hash, rows: seq<Row>, i: nat): seq<IntegrityError>
    requires i < |rows|
  {
    var row := rows[i];
    var computed := RowHash(h, row.prevHash, row.event);
    (if row.prevHash != PrevHash(rows, i) then [IntegrityError(row.id, PrevHash(rows, i), row.prevHash)] else [])
    + (if row.rowHash != computed then [IntegrityError(row.id, computed, row.rowHash)] else [])
  }

  /** The errors of the first `n` rows, in order. */
  function Errors(h: Hash, rows: seq<Row>, n: nat): seq<IntegrityError>
    requires n <= |rows|
  {
    if n == 0 then [] else Errors(h, rows, n - 1) + RowErrors(h, rows, n - 1)
  }

  predicate Names(errors: seq<IntegrityError>, id: int) {
    exists k :: 0 <= k < |errors| && errors[k].rowId == id
  }

  lemma RowErrorsNameBroken(h: Hash, rows: seq<Row>, i: nat, id: int)
    requires i < |rows|
    ensures Names(RowErrors(h, rows, i), id) <==> !Linked(h, rows, i) && rows[i].id == id
  {
    hide RowHash;
    var errors := RowErrors(h, rows, i);
    assert !Linked(h, rows, i) <==> errors != [];
    assert errors != [] ==> errors[0].rowId == rows[i].id;
  }

  lemma NamesAppend(a: seq<IntegrityError>, b: seq<IntegrityError>, id: int)
    ensures Names(a + b, id) <==> Names(a, id) || Names(b, id)
  {
    if Names(a, id) {
      var k :| 0 <= k < |a| && a[k].rowId == id;
      assert (a + b)[k].rowId == id;
    }
    if Names(b, id) {
      var k :| 0 <= k < |b| && b[k].rowId == id;
      assert (a + b)[|a| + k].rowId == id;
    }
  }

  /** The report names exactly the rows that are not linked. */
  lemma {:induction false} ErrorsNameBrokenRows(h: Hash, rows: seq<Row>, n: nat, id: int)
    requires n <= |rows|
    ensures Names(Errors(h, rows, n), id) <==> exists i :: 0 <= i < n && rows[i].id == id && !Linked(h, rows, i)
  {
    hide RowErrors, Names, Linked;
    if n > 0 {
      ErrorsNameBrokenRows(h, rows, n - 1, id);
      RowErrorsNameBroken(h, rows, n - 1, id);
      NamesAppend(Errors(h, rows, n - 1), RowErrors(h, rows, n - 1), id);
    } else {
      assert !Names([], id) by { NamesNothing(id); }
    }
  }

  lemma NamesNothing(id: int)
    ensures !Names([], id)
  {
  }

  lemma {:induction false} NoErrorsIffLinked(h: Hash, rows: seq<Row>, n: nat)
    requires n <= |rows|
    ensures Errors(h, rows, n) == [] <==> forall i :: 0 <= i < n ==> Linked(h, rows, i)
  {
    hide RowHash;
    if n > 0 {
      NoErrorsIffLinked(h, rows, n - 1);
      assert RowErrors(h, rows, n - 1) == [] <==> Linked(h, rows, n - 1);
      assert Errors(h, rows, n) == [] <==> Errors(h, rows, n - 1) == [] && RowErrors(h, rows, n - 1) == [];
    }
  }

  // ---------------------------------------------------------------------------
  // What repair produces
  // ---------------------------------------------------------------------------

  /** Every row linked anew, from the first on. */
  function Repaired(h: Hash, rows: seq<Row>): (chain: seq<Row>)
    ensures |chain| == |rows| && Intact(h, chain)
    ensures forall i :: 0 <= i < |rows| ==> chain[i].id == rows[i].id && chain[i].event == rows[i].event
  {
    hide Appended, Linked;
    if rows == [] then []
    else
      var n := |rows| - 1;
      var front := Repaired(h, rows[..n]);
      var chain := Appended(h, front, rows[n].id, rows[n].event);
      assert forall i :: 0 <= i < n ==> chain[i] == chain[..n][i];
      chain
  }

  /** Each repaired row is the old one with its hashes computed anew. */
  lemma RepairedAt(h: Hash, rows: seq<Row>, i: nat)
    requires i < |rows|
    ensures var chain := Repaired(h, rows);
            var prev := PrevHash(chain, i);
            chain[i] == rows[i].(prevHash := prev, rowHash := RowHash(h, prev, rows[i].event))
  {
    hide RowHash, Repaired;
    assert Linked(h, Repaired(h, rows), i);
  }

  /** The repaired chain is the only intact one with these ids and events. */
  lemma {:induction false} RepairIsUnique(h: Hash, rows: seq<Row>, chain: seq<Row>, i: nat)
    requires Intact(h, chain) && |chain| == |rows| && i < |rows|
    requires forall k :: 0 <= k < |rows| ==> chain[k].id == rows[k].id && chain[k].event == rows[k].event
    ensures chain[i] == Repaired(h, rows)[i]
  {
    hide RowHash;
    if i > 0 {
      RepairIsUnique(h, rows, chain, i - 1);
    }
    assert Linked(h, chain, i) && Linked(h, Repaired(h, rows), i);
  }

  lemma {:induction false} RepairPrefix(h: Hash, rows: seq<Row>, k: nat)
    requires k <= |rows|
    ensures Repaired(h, rows)[..k] == Repaired(h, rows[..k])
  {
    hide RowHash;
    IntactPrefix(h, Repaired(h, rows), k);
    var front := Repaired(h, rows)[..k];
    forall i | 0 <= i < k ensures front[i] == Repaired(h, rows[..k])[i] {
      RepairIsUnique(h, rows[..k], front, i);
    }
  }

  /** Repair leaves every intact prefix, and so an intact log, as it is. */
  lemma RepairKeepsIntactPrefix(h: Hash, rows: seq<Row>, k: nat)
    requires k <= |rows| && Intact(h, rows[..k])
    ensures Repaired(h, rows)[..k] == rows[..k]
  {
    hide RowHash;
    RepairPrefix(h, rows, k);
    forall i | 0 <= i < k ensures rows[..k][i] == Repaired(h, rows[..k])[i] {
      RepairIsUnique(h, rows[..k], rows[..k], i);
    }
  }

  /** How many of the first `n` rows differ in a column. */
  function Differing(n: nat, before: seq<Row>, after: seq<Row>, column: Row -> string): nat
    requires n <= |before| && n <= |after|
  {
    if n == 0 then 0
    else Differing(n - 1, before, after, column)
         + (if column(before[n - 1]) != column(after[n - 1]) then 1 else 0)
  }

  const PREV_HASH := (row: Row) => row.prevHash
  const ROW_HASH := (row: Row) => row.rowHash

  lemma {:induction false} DifferingZero(n: nat, before: seq<Row>, after: seq<Row>, column: Row -> string)
    requires n <= |before| && n <= |after|
    ensures Differing(n, before, after, column) == 0
            <==> forall i :: 0 <= i < n ==> column(before[i]) == column(after[i])
  {
    if n > 0 {
      DifferingZero(n - 1, before, after, column);
    }
  }

  lemma RepairOfIntact(h: Hash, rows: seq<Row>)
    ensures Intact(h, rows) <==> Repaired(h, rows) == rows
  {
    if Intact(h, rows) {
      assert rows[..|rows|] == rows && Repaired(h, rows)[..|rows|] == Repaired(h, rows);
      RepairKeepsIntactPrefix(h, rows, |rows|);
    }
  }

  /** Repair counts no fix exactly when the log was intact; so a second repair counts none. */
  lemma NoFixIffIntact(h: Hash, rows: seq<Row>)
    ensures var chain := Repaired(h, rows);
            Differing(|rows|, rows, chain, PREV_HASH) == 0 && Differing(|rows|, rows, chain, ROW_HASH) == 0
            <==> Intact(h, rows)
  {
    hide RowHash, Linked, Repaired;
    var chain := Repaired(h, rows);
    DifferingZero(|rows|, rows, chain, PREV_HASH);
    DifferingZero(|rows|, rows, chain, ROW_HASH);
    RepairOfIntact(h, rows);
    if forall i :: 0 <= i < |rows| ==> PREV_HASH(rows[i]) == PREV_HASH(chain[i]) && ROW_HASH(rows[i]) == ROW_HASH(chain[i]) {
      assert forall i :: 0 <= i < |rows| ==> rows[i] == chain[i];
      assert rows == chain;
    }
  }

  lemma RepairTwice(h: Hash, rows: seq<Row>)
    ensures var chain := Repaired(h, rows);
            && Repaired(h, chain) == chain
            && Differing(|rows|, chain, Repaired(h, chain), PREV_HASH) == 0
            && Differing(|rows|, chain, Repaired(h, chain), ROW_HASH) == 0
  {
    hide RowHash, Linked, Repaired;
    RepairOfIntact(h, Repaired(h, rows));
    NoFixIffIntact(h, Repaired(h, rows));
  }

  // ---------------------------------------------------------------------------
  // The table
  // ---------------------------------------------------------------------------

  class Table {
    const h: Hash
    var rows: seq<Row>

    constructor (h: Hash, rows: seq<Row>)
      ensures this.h == h && this.rows == rows
    {
      this.h := h;
      this.rows := rows;
    }

    /** `verify_integrity` */
    method VerifyIntegrity() returns (result: IntegrityResult)
      ensures result.intact <==> Intact(h, rows)
      ensures result.rowsChecked == |rows|
      ensures result.errors == Errors(h, rows, |rows|)
    {
      hide RowHash;
      var errors := [];
      var expectedPrevHash := "";
      for i := 0 to |rows|
        invariant errors == Errors(h, rows, i)
        invariant expectedPrevHash == PrevHash(rows, i)
      {
        var row := rows[i];
        ghost var before := errors;
        if row.prevHash != expectedPrevHash {
          errors := errors + [IntegrityError(row.id, expectedPrevHash, row.prevHash)];
        }
        var computed := RowHash(h, row.prevHash, row.event);
        if row.rowHash != computed {
          errors := errors + [IntegrityError(row.id, computed, row.rowHash)];
        }
        assert errors == before + RowErrors(h, rows, i);
        expectedPrevHash := row.rowHash;
      }
      NoErrorsIffLinked(h, rows, |rows|);
      result := IntegrityResult(errors == [], |rows|, errors);
    }

    /** `repair_integrity`, inside its transaction. */
    method RepairIntegrity() returns (result: RepairResult)
      modifies this
      ensures rows == Repaired(h, old(rows))
      ensures result.intact && result.remainingErrors == [] && result.rowsChecked == |rows|
      ensures result.prevHashFixed == Differing(|rows|, old(rows), rows, PREV_HASH)
      ensures result.rowHashFixed == Differing(|rows|, old(rows), rows, ROW_HASH)
    {
      hide RowHash, Repaired, Linked, Errors;
      var fetched := rows;
      ghost var chain := Repaired(h, fetched);
      var prevHashFixed, rowHashFixed := 0, 0;
      var expectedPrevHash := "";
      for i := 0 to |fetched|
        invariant |rows| == |fetched|
        invariant rows[..i] == chain[..i] && rows[i..] == fetched[i..]
        invariant expectedPrevHash == PrevHash(chain, i)
        invariant prevHashFixed == Differing(i, fetched, chain, PREV_HASH)
        invariant rowHashFixed == Differing(i, fetched, chain, ROW_HASH)
      {
        var row := fetched[i];
        RepairedAt(h, fetched, i);
        if row.prevHash != expectedPrevHash {
          prevHashFixed := prevHashFixed + 1;
        }
        var computed := RowHash(h, expectedPrevHash, row.event);
        if row.rowHash != computed {
          rowHashFixed := rowHashFixed + 1;
        }
        rows := rows[i := rows[i].(prevHash := expectedPrevHash, rowHash := computed)];
        assert rows[i] == chain[i];
        assert rows[..i + 1] == chain[..i + 1];
        expectedPrevHash := computed;
      }
      assert rows == chain;
      var verified := VerifyIntegrity();
      NoErrorsIffLinked(h, rows, |rows|);
      result := RepairResult(verified.intact, verified.rowsChecked, prevHashFixed, rowHashFixed, verified.errors);
    }
  }
}
