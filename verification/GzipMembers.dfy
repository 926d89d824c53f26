/** Files of several gzip members (section 2.2 of RFC 1952). */
module GzipMembers {
  import opened Wrappers
  import opened Bytes

  const HEADER := 10

  /** How many bytes the decoder uses of a text that starts with a member. */
  type Decoder = seq<byte> -> nat

  /** Magic bytes, the deflate method, and no reserved flag bit (section 2.3.1). */
  predicate HeaderAt(data: seq<byte>, pos: nat) {
    && pos + HEADER <= |data|
    && data[pos] == 0x1f && data[pos + 1] == 0x8b
    && data[pos + 2] == 8
    && data[pos + 3] < 0x20
  }

  /** How far the scan moves on from `pos`. */
  function StepAt(decode: Decoder, data: seq<byte>, pos: nat): (step: nat)
    requires pos <= |data|
    ensures step > 0
  {
    if HeaderAt(data, pos) && decode(data[pos..]) > 0 then decode(data[pos..]) else 1
  }

  /** The offsets found from `pos` on. */
  function Scan(decode: Decoder, data: seq<byte>, pos: nat): seq<nat>
    decreases |data| - pos
  {
    if pos + HEADER > |data| then []
    else (if HeaderAt(data, pos) then [pos] else []) + Scan(decode, data, pos + StepAt(decode, data, pos))
  }

  function Boundaries(decode: Decoder, data: seq<byte>): Option<seq<nat>> {
    var offsets := Scan(decode, data, 0);
    if offsets == [] then None else Some(offsets)
  }

  /** `find_gzip_stream_boundaries` */
  method FindGzipStreamBoundaries(decode: Decoder, data: seq<byte>) returns (found: Option<seq<nat>>)
    ensures found == Boundaries(decode, data)
  {
    hide Scan;
    var offsets: seq<nat> := [];
    var pos := 0;
    while pos + HEADER <= |data|
      invariant offsets + Scan(decode, data, pos) == Scan(decode, data, 0)
      decreases |data| - pos
    {
      ScanStep(decode, data, pos);
      if data[pos] == 0x1f && data[pos + 1] == 0x8b {
        if data[pos + 2] != 8 {
          pos := pos + 1;
          continue;
        }
        if data[pos + 3] >= 0x20 {
          pos := pos + 1;
          continue;
        }
        offsets := offsets + [pos];
        var consumed := decode(data[pos..]);
        if consumed == 0 {
          pos := pos + 1;
        } else {
          pos := pos + consumed;
        }
      } else {
        pos := pos + 1;
      }
    }
    ScanEnds(decode, data, pos);
    assert offsets + [] == offsets;
    if offsets == [] {
      return None;
    }
    return Some(offsets);
  }

  lemma ScanStep(decode: Decoder, data: seq<byte>, pos: nat)
    requires pos + HEADER <= |data|
    ensures var later := Scan(decode, data, pos + StepAt(decode, data, pos));
            Scan(decode, data, pos) == if HeaderAt(data, pos) then [pos] + later else later
  {
    hide HeaderAt, StepAt;
  }

  lemma ScanEnds(decode: Decoder, data: seq<byte>, pos: nat)
    requires pos + HEADER > |data|
    ensures Scan(decode, data, pos) == []
  {
  }

  /** Rising offsets from `from` on, each the place of a header. */
  predicate Headers(data: seq<byte>, from: nat, at: seq<nat>) {
    && (forall i :: 0 <= i < |at| ==> from <= at[i] && HeaderAt(data, at[i]))
    && (forall i, j :: 0 <= i < j < |at| ==> at[i] < at[j])
  }

  lemma HeadersStep(data: seq<byte>, from: nat, step: nat, later: seq<nat>)
    requires step > 0 && Headers(data, from + step, later)
    ensures Headers(data, from, later)
    ensures HeaderAt(data, from) ==> Headers(data, from, [from] + later)
  {
    hide HeaderAt;
  }

  /** On arbitrary bytes the offsets rise, and each is the place of a header. */
  lemma {:induction false} OffsetsRise(decode: Decoder, data: seq<byte>, pos: nat)
    ensures Headers(data, pos, Scan(decode, data, pos))
    decreases |data| - pos
  {
    hide HeaderAt, StepAt, Scan;
    if pos + HEADER <= |data| {
      var step := StepAt(decode, data, pos);
      OffsetsRise(decode, data, pos + step);
      ScanStep(decode, data, pos);
      HeadersStep(data, pos, step, Scan(decode, data, pos + step));
    } else {
      ScanEnds(decode, data, pos);
    }
  }

  function Shift(offsets: seq<nat>, delta: nat): (moved: seq<nat>)
    ensures |moved| == |offsets| && forall i :: 0 <= i < |moved| ==> moved[i] == offsets[i] + delta
  {
    seq(|offsets|, i requires 0 <= i < |offsets| => offsets[i] + delta)
  }

  lemma ShiftTwice(offsets: seq<nat>, a: nat, b: nat)
    ensures Shift(Shift(offsets, a), b) == Shift(offsets, a + b)
  {
  }

  lemma ShiftStep(later: seq<nat>, delta: nat)
    ensures Shift([0] + later, delta) == [delta] + Shift(later, delta)
  {
  }

  lemma SameHeader(data: seq<byte>, pos: nat)
    requires pos <= |data|
    ensures HeaderAt(data, pos) <==> HeaderAt(data[pos..], 0)
  {
  }

  lemma SameStep(decode: Decoder, data: seq<byte>, pos: nat)
    requires pos <= |data|
    ensures StepAt(decode, data, pos) == StepAt(decode, data[pos..], 0)
  {
    SameHeader(data, pos);
    hide HeaderAt;
    assert data[pos..][0..] == data[pos..];
  }

  lemma DropDrop(data: seq<byte>, pos: nat, step: nat)
    requires pos + step <= |data|
    ensures data[pos..][step..] == data[pos + step..]
  {
  }

  /** What the scan finds from a place on depends only on the bytes from there on. */
  lemma {:induction false} ScanShifts(decode: Decoder, data: seq<byte>, pos: nat)
    requires pos <= |data|
    ensures Scan(decode, data, pos) == Shift(Scan(decode, data[pos..], 0), pos)
    decreases |data| - pos, 1
  {
    hide HeaderAt, Scan, StepAt, Shift;
    var rest := data[pos..];
    if pos + HEADER > |data| {
      ScanEnds(decode, data, pos);
      ScanEnds(decode, rest, 0);
      assert |Shift([], pos)| == 0;
    } else {
      var step := StepAt(decode, data, pos);
      SameHeader(data, pos);
      SameStep(decode, data, pos);
      ScanStep(decode, data, pos);
      ScanStep(decode, rest, 0);
      LaterShifts(decode, data, pos, step);
      ShiftStep(Scan(decode, rest, step), pos);
    }
  }

  lemma {:induction false} LaterShifts(decode: Decoder, data: seq<byte>, pos: nat, step: nat)
    requires pos <= |data| && step > 0
    ensures Scan(decode, data, pos + step) == Shift(Scan(decode, data[pos..], step), pos)
    decreases |data| - pos, 0
  {
    hide HeaderAt, Scan, StepAt, Shift;
    var rest := data[pos..];
    if pos + step <= |data| {
      DropDrop(data, pos, step);
      ScanShifts(decode, data, pos + step);
      ScanShifts(decode, rest, step);
      ShiftTwice(Scan(decode, data[pos + step..], 0), step, pos);
    } else {
      ScanEnds(decode, data, pos + step);
      ScanEnds(decode, rest, step);
      assert |Shift([], pos)| == 0;
    }
  }

  /** Scanning on from an offset finds the offsets from it on. */
  lemma {:induction false} ScanFromOffset(decode: Decoder, data: seq<byte>, pos: nat, i: nat)
    requires i < |Scan(decode, data, pos)|
    ensures var at := Scan(decode, data, pos); Scan(decode, data, at[i]) == at[i..]
    decreases |data| - pos
  {
    hide HeaderAt, StepAt, Scan;
    if pos + HEADER > |data| {
      ScanEnds(decode, data, pos);
    } else {
      ScanStep(decode, data, pos);
      var step := StepAt(decode, data, pos);
      var at, later := Scan(decode, data, pos), Scan(decode, data, pos + step);
      if !HeaderAt(data, pos) {
        ScanFromOffset(decode, data, pos + step, i);
      } else if i > 0 {
        ScanFromOffset(decode, data, pos + step, i - 1);
        assert at[i..] == later[i - 1..];
      } else {
        assert at[0..] == at;
      }
    }
  }

  // ---------------------------------------------------------------------------
  // Concatenated members
  // ---------------------------------------------------------------------------

  /** A member the decoder reads to its end and no further, whatever follows. */
  ghost predicate Member(decode: Decoder, m: seq<byte>) {
    HeaderAt(m, 0) && forall rest :: decode(m + rest) == |m|
  }

  /** The scan goes from the start of a member to its end. */
  lemma ScansMember(decode: Decoder, m: seq<byte>, rest: seq<byte>)
    requires Member(decode, m)
    ensures Scan(decode, m + rest, 0) == [0] + Scan(decode, m + rest, |m|)
  {
    var data := m + rest;
    assert data[0..] == m + rest;
    assert HeaderAt(data, 0);
  }

  function Concat(ms: seq<seq<byte>>): seq<byte> {
    if ms == [] then [] else ms[0] + Concat(ms[1..])
  }

  /** Where each of the concatenated texts starts. */
  function Starts(ms: seq<seq<byte>>): (starts: seq<nat>)
    ensures |starts| == |ms|
    ensures forall i :: 0 <= i < |ms| ==> starts[i] == |Concat(ms[..i])|
  {
    seq(|ms|, i requires 0 <= i < |ms| => |Concat(ms[..i])|)
  }

  lemma StartsAfter(ms: seq<seq<byte>>)
    requires ms != []
    ensures Starts(ms) == [0] + Shift(Starts(ms[1..]), |ms[0]|)
  {
    var shifted := [0] + Shift(Starts(ms[1..]), |ms[0]|);
    forall i | 0 <= i < |ms| ensures Starts(ms)[i] == shifted[i] {
      if i > 0 {
        assert ms[..i][1..] == ms[1..][..i - 1];
      }
    }
  }

  /** On concatenated members the scan finds exactly where each of them starts. */
  lemma {:induction false} FindsMembers(decode: Decoder, ms: seq<seq<byte>>)
    requires forall m :: m in ms ==> Member(decode, m)
    ensures Scan(decode, Concat(ms), 0) == Starts(ms)
    decreases |ms|
  {
    hide Scan, Starts, Member;
    if ms == [] {
      NothingFound(decode);
    } else {
      var m, rest := ms[0], ms[1..];
      ScansMember(decode, m, Concat(rest));
      FindsMembers(decode, rest);
      assert Concat(rest) == Concat(ms)[|m|..];
      ScanShifts(decode, Concat(ms), |m|);
      StartsAfter(ms);
    }
  }

  lemma NothingFound(decode: Decoder)
    ensures Scan(decode, [], 0) == Starts([])
  {
  }
}
