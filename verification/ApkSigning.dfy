/** Re-signing .apk packages: gzip members for signature, control and data. */
module ApkSigning {
  import opened Wrappers
  import opened Bytes
  import opened TarArchive
  import Gzip = GzipMembers

  datatype Error = NoStreams | TooFewStreams | UnreadableControl | SigningFailed
  datatype Result = Ok(bytes: seq<byte>) | Err(error: Error)

  /** The library code around the archives. */
  datatype Tools = Tools(
    decode: Gzip.Decoder,
    compress: seq<byte> -> seq<byte>,
    decompress: seq<byte> -> seq<byte>,
    hasDataHash: seq<byte> -> Option<bool>,
    sign: seq<byte> -> Option<seq<byte>>,
    digest: seq<byte> -> seq<byte>,
    paxEntry: Entry,
    signatureHeader: nat -> seq<byte>)

  // ---------------------------------------------------------------------------
  // The parts of a package
  // ---------------------------------------------------------------------------

  /** Everything from the second member on. */
  function Body(offsets: seq<nat>, data: seq<byte>): seq<byte>
    requires |offsets| >= 2 && offsets[1] <= |data|
  {
    data[offsets[1]..]
  }

  function ControlEnd(offsets: seq<nat>, data: seq<byte>): nat {
    if |offsets| > 2 then offsets[2] else |data|
  }

  /** The second member. */
  function Control(offsets: seq<nat>, data: seq<byte>): seq<byte>
    requires |offsets| >= 2 && offsets[1] <= ControlEnd(offsets, data) <= |data|
  {
    data[offsets[1]..ControlEnd(offsets, data)]
  }

  function Offsets(tools: Tools, data: seq<byte>): seq<nat> {
    Gzip.Scan(tools.decode, data, 0)
  }

  lemma OffsetsInside(tools: Tools, data: seq<byte>)
    requires |Offsets(tools, data)| >= 2
    ensures var at := Offsets(tools, data);
            0 <= at[0] < at[1] <= ControlEnd(at, data) <= |data| && at[1] + Gzip.HEADER <= |data|
  {
    hide Gzip.Scan;
    Gzip.OffsetsRise(tools.decode, data, 0);
  }

  /** The second member of a package, if it has two. */
  function ControlOf(tools: Tools, data: seq<byte>): Option<seq<byte>> {
    var at := Offsets(tools, data);
    if |at| < 2 then None
    else
      OffsetsInside(tools, data);
      Some(Control(at, data))
  }

  /** The package without its first member, if it has two. */
  function BodyOf(tools: Tools, data: seq<byte>): Option<seq<byte>> {
    var at := Offsets(tools, data);
    if |at| < 2 then None
    else
      OffsetsInside(tools, data);
      Some(Body(at, data))
  }

  /** What the signature covers, if the control member can be read. */
  function SignedPart(tools: Tools, data: seq<byte>): Option<seq<byte>> {
    var control := ControlOf(tools, data);
    if control.None? || tools.hasDataHash(control.value).None? then None
    else if tools.hasDataHash(control.value).value then control
    else BodyOf(tools, data)
  }

  /** `compute_apk_control_checksum` */
  method ControlChecksum(tools: Tools, data: seq<byte>) returns (sum: Option<seq<byte>>)
    ensures sum == var c := ControlOf(tools, data); if c.None? then None else Some(tools.digest(c.value))
  {
    hide Gzip.Scan;
    var found := Gzip.FindGzipStreamBoundaries(tools.decode, data);
    if found.None? {
      return None;
    }
    var at := found.value;
    if |at| < 2 {
      return None;
    }
    OffsetsInside(tools, data);
    var end := if |at| > 2 then at[2] else |data|;
    return Some(tools.digest(data[at[1]..end]));
  }

  // ---------------------------------------------------------------------------
  // Re-signing
  // ---------------------------------------------------------------------------

  function SignatureEntries(tools: Tools, signature: seq<byte>): seq<Entry> {
    [tools.paxEntry, Entry(tools.signatureHeader(|signature|), signature)]
  }

  /** The compressed signature archive without its end mark. */
  function SignatureMember(tools: Tools, signature: seq<byte>): seq<byte> {
    tools.compress(Strip(Archive(SignatureEntries(tools, signature), 2)))
  }

  /** A new signature of the signed part in front of the old body. */
  predicate IsResigned(tools: Tools, data: seq<byte>, bytes: seq<byte>) {
    var part := SignedPart(tools, data);
    && part.Some? && tools.sign(part.value).Some?
    && BodyOf(tools, data).Some?
    && bytes == SignatureMember(tools, tools.sign(part.value).value) + BodyOf(tools, data).value
  }

  /** `resign_apk`, from the bytes of the old file to those of the new. */
  method ResignApk(tools: Tools, data: seq<byte>) returns (r: Result)
    ensures r.Ok? ==> IsResigned(tools, data, r.bytes)
    ensures r == Err(NoStreams) <==> Offsets(tools, data) == []
    ensures r == Err(TooFewStreams) <==> |Offsets(tools, data)| == 1
    ensures r == Err(UnreadableControl)
            <==> ControlOf(tools, data).Some? && tools.hasDataHash(ControlOf(tools, data).value).None?
    ensures r == Err(SigningFailed)
            <==> SignedPart(tools, data).Some? && tools.sign(SignedPart(tools, data).value).None?
  {
    hide Gzip.Scan, Archive, Strip;
    var found := Gzip.FindGzipStreamBoundaries(tools.decode, data);
    if found.None? {
      return Err(NoStreams);
    }
    var at := found.value;
    if |at| < 2 {
      return Err(TooFewStreams);
    }
    OffsetsInside(tools, data);
    var control := data[at[1]..(if |at| > 2 then at[2] else |data|)];
    assert control == ControlOf(tools, data).value;
    var hash := tools.hasDataHash(control);
    if hash.None? {
      return Err(UnreadableControl);
    }
    var signed := if hash.value then control else data[at[1]..];
    var signature := tools.sign(signed);
    if signature.None? {
      return Err(SigningFailed);
    }
    var entries := SignatureEntries(tools, signature.value);
    var cut := StripTarEof(Archive(entries, 2));
    var bytes := tools.compress(cut);
    bytes := bytes + data[at[1]..];
    return Ok(bytes);
  }

  // ---------------------------------------------------------------------------
  // What re-signing keeps
  // ---------------------------------------------------------------------------

  /** The compressor writes one member. */
  ghost predicate CompressesToMembers(tools: Tools) {
    forall text :: Gzip.Member(tools.decode, tools.compress(text))
  }

  /** The offsets of a body on its own. */
  function BodyOffsets(tools: Tools, body: seq<byte>): seq<nat> {
    Gzip.Scan(tools.decode, body, 0)
  }

  /** The first member of a body, whatever precedes the body. */
  function FirstOf(body: seq<byte>, inner: seq<nat>): seq<byte>
    requires |inner| > 1 ==> inner[1] <= |body|
  {
    body[..(if |inner| > 1 then inner[1] else |body|)]
  }

  predicate Starting(tools: Tools, body: seq<byte>) {
    var inner := BodyOffsets(tools, body);
    inner != [] && inner[0] == 0 && (|inner| > 1 ==> inner[1] <= |body|)
  }

  /** `data` is something followed by `body`, and its offsets after the first are those of `body`. */
  predicate Fits(tools: Tools, data: seq<byte>, front: seq<byte>, body: seq<byte>) {
    var at := Offsets(tools, data);
    && data == front + body && Starting(tools, body)
    && |at| >= 2 && at[1..] == Gzip.Shift(BodyOffsets(tools, body), |front|)
  }

  lemma PartsOfFit(tools: Tools, data: seq<byte>, front: seq<byte>, body: seq<byte>)
    requires Fits(tools, data, front, body)
    ensures BodyOf(tools, data) == Some(body)
    ensures ControlOf(tools, data) == Some(FirstOf(body, BodyOffsets(tools, body)))
  {
    hide Gzip.Scan, Gzip.Shift;
    var at, inner := Offsets(tools, data), BodyOffsets(tools, body);
    OffsetsInside(tools, data);
    assert at[1] == at[1..][0] == |front|;
    assert |at[1..]| == |inner|;
    assert |at| > 2 ==> at[2] == at[1..][1] == |front| + inner[1];
    var end := if |inner| > 1 then inner[1] else |body|;
    assert ControlEnd(at, data) == |front| + end;
    assert (front + body)[|front|..|front| + end] == body[..end];
    assert (front + body)[|front|..] == body;
  }

  lemma OldFits(tools: Tools, data: seq<byte>)
    requires |Offsets(tools, data)| >= 2
    ensures var o := Offsets(tools, data)[1]; o <= |data| && Fits(tools, data, data[..o], data[o..])
  {
    hide Gzip.Scan, Gzip.Shift;
    var at := Offsets(tools, data);
    OffsetsInside(tools, data);
    var front, body := data[..at[1]], data[at[1]..];
    assert data == front + body;
    Gzip.ScanFromOffset(tools.decode, data, 0, 1);
    Gzip.ScanShifts(tools.decode, data, at[1]);
    var inner := BodyOffsets(tools, body);
    assert at[1..] == Gzip.Shift(inner, at[1]);
    assert inner[0] == at[1..][0] - at[1] == 0;
    assert |inner| > 1 ==> inner[1] == at[1..][1] - at[1] == at[2] - at[1];
  }

  lemma NewFits(tools: Tools, m: seq<byte>, body: seq<byte>)
    requires Gzip.Member(tools.decode, m) && Starting(tools, body)
    ensures Fits(tools, m + body, m, body)
    ensures Offsets(tools, m + body)[0] == 0
  {
    hide Gzip.Scan, Gzip.Shift, Gzip.Member;
    var data := m + body;
    Gzip.ScansMember(tools.decode, m, body);
    Gzip.ScanShifts(tools.decode, data, |m|);
    assert data[|m|..] == body;
    assert Offsets(tools, data)[1..] == Gzip.Scan(tools.decode, data, |m|);
  }

  /** Re-signing keeps the control member and everything after it, and so what is signed. */
  lemma ResigningKeepsParts(tools: Tools, data: seq<byte>, bytes: seq<byte>)
    requires CompressesToMembers(tools) && IsResigned(tools, data, bytes)
    ensures BodyOf(tools, bytes) == BodyOf(tools, data)
    ensures ControlOf(tools, bytes) == ControlOf(tools, data)
    ensures SignedPart(tools, bytes) == SignedPart(tools, data)
  {
    hide Gzip.Scan, Gzip.Member, Fits, SignatureMember, Starting;
    var o := Offsets(tools, data)[1];
    OldFits(tools, data);
    var body := data[o..];
    PartsOfFit(tools, data, data[..o], body);
    var signature := tools.sign(SignedPart(tools, data).value).value;
    var m := SignatureMember(tools, signature);
    assert Gzip.Member(tools.decode, m) by { CompressedMember(tools, signature); }
    assert Starting(tools, body) by { FitStarts(tools, data, data[..o], body); }
    NewFits(tools, m, body);
    PartsOfFit(tools, bytes, m, body);
  }

  lemma CompressedMember(tools: Tools, signature: seq<byte>)
    requires CompressesToMembers(tools)
    ensures Gzip.Member(tools.decode, SignatureMember(tools, signature))
  {
    hide Archive, Strip, Gzip.Member;
  }

  lemma FitStarts(tools: Tools, data: seq<byte>, front: seq<byte>, body: seq<byte>)
    requires Fits(tools, data, front, body)
    ensures Starting(tools, body)
  {
  }

  /** The offsets after re-signing: the first member is replaced, the others move with it. */
  lemma ResigningMovesOffsets(tools: Tools, data: seq<byte>, bytes: seq<byte>)
    requires CompressesToMembers(tools) && IsResigned(tools, data, bytes)
    ensures var at, moved := Offsets(tools, data), Offsets(tools, bytes);
            && |moved| == |at| && moved[0] == 0
            && |bytes| - moved[1] == |data| - at[1]
            && forall i :: 1 <= i < |at| ==> moved[i] + at[1] == at[i] + moved[1]
  {
    hide Gzip.Scan, Gzip.Member, SignatureMember, Starting;
    var at := Offsets(tools, data);
    OldFits(tools, data);
    OffsetsInside(tools, data);
    var body := data[at[1]..];
    PartsOfFit(tools, data, data[..at[1]], body);
    var signature := tools.sign(SignedPart(tools, data).value).value;
    var m := SignatureMember(tools, signature);
    CompressedMember(tools, signature);
    NewFits(tools, m, body);
    var now := Offsets(tools, bytes);
    assert |now[1..]| == |at[1..]|;
    forall i | 1 <= i < |at| ensures now[i] - |m| == at[i] - at[1] {
      assert now[i] == now[1..][i - 1] && at[i] == at[1..][i - 1];
    }
  }

  /** Re-signing a re-signed package changes nothing. */
  lemma ResigningTwice(tools: Tools, data: seq<byte>, once: seq<byte>, twice: seq<byte>)
    requires CompressesToMembers(tools)
    requires IsResigned(tools, data, once)
    ensures IsResigned(tools, once, twice) <==> twice == once
  {
    hide BodyOf, SignedPart, SignatureMember;
    ResigningKeepsParts(tools, data, once);
  }

  // ---------------------------------------------------------------------------
  // Packages made of members
  // ---------------------------------------------------------------------------

  lemma ConcatOne(m: seq<byte>)
    ensures Gzip.Concat([m]) == m
  {
    var rest: seq<seq<byte>> := [m][1..];
    assert rest == [];
    assert m + [] == m;
  }

  /** In a package of members the control member is the second, and the signed part starts with it. */
  lemma PartsOfMembers(tools: Tools, ms: seq<seq<byte>>)
    requires |ms| >= 2 && forall m :: m in ms ==> Gzip.Member(tools.decode, m)
    ensures ControlOf(tools, Gzip.Concat(ms)) == Some(ms[1])
    ensures BodyOf(tools, Gzip.Concat(ms)) == Some(Gzip.Concat(ms[1..]))
    ensures var hash := tools.hasDataHash(ms[1]);
            SignedPart(tools, Gzip.Concat(ms))
            == if hash.None? then None else Some(if hash.value then ms[1] else Gzip.Concat(ms[1..]))
  {
    hide Gzip.Scan, Gzip.Member, Gzip.Shift, Gzip.Starts;
    var body := Gzip.Concat(ms[1..]);
    Gzip.FindsMembers(tools.decode, ms[1..]);
    var inner := BodyOffsets(tools, body);
    assert ms[1..][0] == ms[1];
    assert ms[1..][..0] == [] && Gzip.Concat([]) == [];
    assert inner[0] == 0;
    assert body == ms[1] + Gzip.Concat(ms[1..][1..]);
    if |ms| > 2 {
      assert ms[1..][..1] == [ms[1]];
      ConcatOne(ms[1]);
      assert inner[1] == |ms[1]|;
    } else {
      assert ms[1..][1..] == [];
    }
    NewFits(tools, ms[0], body);
    PartsOfFit(tools, Gzip.Concat(ms), ms[0], body);
  }

  /** A package of members is re-signed by putting one new member in place of the first. */
  lemma ResignsMembers(tools: Tools, ms: seq<seq<byte>>, bytes: seq<byte>)
    requires |ms| >= 2 && forall m :: m in ms ==> Gzip.Member(tools.decode, m)
    requires IsResigned(tools, Gzip.Concat(ms), bytes)
    ensures exists signature :: bytes == Gzip.Concat([SignatureMember(tools, signature)] + ms[1..])
  {
    hide BodyOf, SignedPart, SignatureMember, Gzip.Member;
    PartsOfMembers(tools, ms);
    var signature := tools.sign(SignedPart(tools, Gzip.Concat(ms)).value).value;
    var now := [SignatureMember(tools, signature)] + ms[1..];
    assert now[1..] == ms[1..];
    assert bytes == Gzip.Concat(now);
  }

  // ---------------------------------------------------------------------------
  // The unpacked package read as one tar archive
  // ---------------------------------------------------------------------------

  predicate ReadableEntries(tools: Tools, size: SizeField, signature: seq<byte>) {
    ValidEntries(size, SignatureEntries(tools, signature))
  }

  /**
    The unpacked signature member and whatever is unpacked after it read as the
    signature entries and then the rest, exactly if the signature's last block
    is not all zero.
  */
  lemma SignatureThenControl(tools: Tools, size: SizeField, signature: seq<byte>)
    requires forall text :: tools.decompress(tools.compress(text)) == text
    requires ReadableEntries(tools, size, signature)
    ensures Continues(size, SignatureEntries(tools, signature), tools.decompress(SignatureMember(tools, signature)))
            <==> LastBlockKept(SignatureEntries(tools, signature))
  {
    hide Archive, Strip, Continues, LastBlockKept;
    StrippedContinues(size, SignatureEntries(tools, signature), 2);
  }

  /** For a signature of at most one block: exactly if it is empty or some byte of it is not zero. */
  lemma ShortSignature(tools: Tools, size: SizeField, signature: seq<byte>)
    requires ReadableEntries(tools, size, signature) && |signature| <= BLOCK
    ensures LastBlockKept(SignatureEntries(tools, signature)) <==> signature == [] || !AllZero(signature)
  {
    var e := SignatureEntries(tools, signature)[1];
    assert ValidEntry(size, e);
    WrittenSize(size, e);
    var w := Written(e);
    if signature == [] {
      HeaderOnly(size, e);
    } else {
      var last := w[|w| - BLOCK..];
      assert last == signature + Zeros(Padding(|signature|));
      assert AllZero(signature) ==> AllZero(last);
      if AllZero(last) {
        assert forall i :: 0 <= i < |signature| ==> signature[i] == last[i];
      }
    }
  }
}
