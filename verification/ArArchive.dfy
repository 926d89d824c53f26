/** The ar archives that carry Debian packages. */
module ArArchive {
  import opened Wrappers
  import opened Bytes

  const MAGIC: seq<byte> := [33, 60, 97, 114, 99, 104, 62, 10]  // "!<arch>\n"
  const HEADER := 60

  datatype Entry = Entry(name: seq<byte>, data: seq<byte>)

  // ---------------------------------------------------------------------------
  // Reading
  // ---------------------------------------------------------------------------

  /** The size field of the header at `pos`, if it is a number. */
  function SizeAt(data: seq<byte>, pos: nat): Option<nat>
    requires pos + HEADER <= |data|
  {
    ParseNumber(Trim(data[pos + 48..pos + 58]))
  }

  function NameAt(data: seq<byte>, pos: nat): seq<byte>
    requires pos + HEADER <= |data|
  {
    Trim(data[pos..pos + 16])
  }

  /** Whether a complete entry starts at `pos`. */
  predicate EntryAt(data: seq<byte>, pos: nat) {
    && pos + HEADER <= |data|
    && SizeAt(data, pos).Some?
    && pos + HEADER + SizeAt(data, pos).value <= |data|
  }

  /** Where the entry after the one at `pos` starts. */
  function Following(data: seq<byte>, pos: nat): (next: nat)
    requires EntryAt(data, pos)
    ensures next >= pos + HEADER + SizeAt(data, pos).value
  {
    var size := SizeAt(data, pos).value;
    pos + HEADER + size + size % 2
  }

  /** The positions of the entries read from `pos` on. */
  function Positions(data: seq<byte>, pos: nat): seq<nat>
    decreases |data| - pos
  {
    if EntryAt(data, pos) then [pos] + Positions(data, Following(data, pos)) else []
  }

  function EntryOf(data: seq<byte>, pos: nat): (entry: Entry)
    requires EntryAt(data, pos)
    ensures |entry.data| == SizeAt(data, pos).value
  {
    var start := pos + HEADER;
    Entry(NameAt(data, pos), data[start..start + SizeAt(data, pos).value])
  }

  function Entries(data: seq<byte>, pos: nat): (entries: seq<Entry>)
    decreases |data| - pos
  {
    if EntryAt(data, pos) then [EntryOf(data, pos)] + Entries(data, Following(data, pos)) else []
  }

  predicate HasMagic(data: seq<byte>) {
    |data| >= 8 && data[..8] == MAGIC
  }

  function Parsed(data: seq<byte>): seq<Entry> {
    if HasMagic(data) then Entries(data, 8) else []
  }

  /** `parse_ar` */
  method ParseAr(data: seq<byte>) returns (entries: seq<Entry>)
    ensures entries == Parsed(data)
  {
    hide Trim, ParseNumber;
    entries := [];
    if |data| < 8 || data[..8] != MAGIC {
      return;
    }
    var pos := 8;
    while pos + HEADER <= |data|
      invariant 8 <= pos
      invariant entries + Entries(data, pos) == Entries(data, 8)
      decreases |data| - pos
    {
      var name := Trim(data[pos..pos + 16]);
      var size := ParseNumber(Trim(data[pos + 48..pos + 58]));
      if size.None? {
        break;
      }
      if pos + HEADER + size.value > |data| {
        break;
      }
      ghost var start := pos;
      pos := pos + HEADER;
      entries := entries + [Entry(name, data[pos..pos + size.value])];
      pos := pos + size.value;
      if size.value % 2 == 1 {
        pos := pos + 1;
      }
      assert EntryAt(data, start) && pos == Following(data, start);
      assert Entries(data, start) == [EntryOf(data, start)] + Entries(data, pos);
    }
    assert Entries(data, pos) == [];
  }

  /**
    On arbitrary bytes: the entries are contents of the input at increasing,
    disjoint places, each behind its own header.
  */
  lemma {:induction false} EntriesAreSlices(data: seq<byte>, pos: nat)
    ensures var at := Positions(data, pos);
            var entries := Entries(data, pos);
            && |at| == |entries|
            && (forall i :: 0 <= i < |at| ==> at[i] >= pos && IsSlice(data, at[i], entries[i]))
            && (forall i, j :: 0 <= i < j < |at| ==> at[i] + HEADER + |entries[i].data| <= at[j])
    decreases |data| - pos
  {
    hide EntryOf, SizeAt, Following;
    if EntryAt(data, pos) {
      var next := Following(data, pos);
      EntriesAreSlices(data, next);
      assert Positions(data, pos) == [pos] + Positions(data, next);
      assert Entries(data, pos) == [EntryOf(data, pos)] + Entries(data, next);
    }
  }

  /** The entry is what the header at `pos` announces. */
  predicate IsSlice(data: seq<byte>, pos: nat, entry: Entry) {
    EntryAt(data, pos) && entry == EntryOf(data, pos)
  }

  lemma SameEntry(data: seq<byte>, cut: nat, pos: nat)
    requires cut <= |data| && EntryAt(data[..cut], pos)
    ensures EntryAt(data, pos) && EntryOf(data[..cut], pos) == EntryOf(data, pos)
    ensures Following(data[..cut], pos) == Following(data, pos)
  {
    hide Trim, ParseNumber;
    var short := data[..cut];
    assert short[pos + 48..pos + 58] == data[pos + 48..pos + 58];
    assert short[pos..pos + 16] == data[pos..pos + 16];
    var size := SizeAt(data, pos).value;
    assert short[pos + HEADER..pos + HEADER + size] == data[pos + HEADER..pos + HEADER + size];
  }

  /** A truncated archive yields the entries that are complete in it, and nothing else. */
  lemma {:induction false} TruncationYieldsPrefix(data: seq<byte>, cut: nat, pos: nat)
    requires cut <= |data|
    ensures Entries(data[..cut], pos) <= Entries(data, pos)
    decreases |data| - pos
  {
    hide EntryOf, SizeAt, Following;
    var short := data[..cut];
    if EntryAt(short, pos) {
      SameEntry(data, cut, pos);
      TruncationYieldsPrefix(data, cut, Following(data, pos));
    }
  }

  // ---------------------------------------------------------------------------
  // Writing, and the round trip
  // ---------------------------------------------------------------------------

  /** An entry with what the reader ignores: owner and mode fields, end mark, pad byte. */
  datatype Member = Member(entry: Entry, owner: seq<byte>, mark: seq<byte>, pad: byte)

  predicate ValidMember(m: Member) {
    && |m.entry.name| <= 16 && Tight(m.entry.name)
    && |m.entry.data| < Pow10(10)
    && |m.owner| == 32 && |m.mark| == 2
  }

  function Padded(s: seq<byte>, width: nat): (p: seq<byte>)
    requires |s| <= width
    ensures |p| == width
  {
    s + Spaces(width - |s|)
  }

  function Header(m: Member): (header: seq<byte>)
    requires ValidMember(m)
    ensures |header| == HEADER
    ensures header[..16] == Padded(m.entry.name, 16)
    ensures |Decimal(|m.entry.data|)| <= 10 && header[48..58] == Padded(Decimal(|m.entry.data|), 10)
  {
    DecimalWidth(|m.entry.data|, 10);
    Padded(m.entry.name, 16) + m.owner + Padded(Decimal(|m.entry.data|), 10) + m.mark
  }

  function Written(m: Member): (bytes: seq<byte>)
    requires ValidMember(m)
    ensures |bytes| == HEADER + |m.entry.data| + |m.entry.data| % 2
  {
    Header(m) + m.entry.data + (if |m.entry.data| % 2 == 1 then [m.pad] else [])
  }

  function WrittenAll(ms: seq<Member>): seq<byte>
    requires forall m :: m in ms ==> ValidMember(m)
  {
    if ms == [] then [] else Written(ms[0]) + WrittenAll(ms[1..])
  }

  lemma ReadsFields(before: seq<byte>, m: Member, after: seq<byte>)
    requires ValidMember(m)
    ensures var data := before + Written(m) + after;
            SizeAt(data, |before|) == Some(|m.entry.data|) && NameAt(data, |before|) == m.entry.name
  {
    hide Trim, ParseNumber, Decimal, Header, Tight;
    var data := before + Written(m) + after;
    var pos := |before|;
    assert data[pos..pos + 16] == Header(m)[..16];
    assert data[pos + 48..pos + 58] == Header(m)[48..58];
    TrimPadding(m.entry.name, 16 - |m.entry.name|);
    ParseDecimal(|m.entry.data|);
    TrimPadding(Decimal(|m.entry.data|), 10 - |Decimal(|m.entry.data|)|);
  }

  lemma ReadsHeader(before: seq<byte>, m: Member, after: seq<byte>)
    requires ValidMember(m)
    ensures var data := before + Written(m) + after;
            && EntryAt(data, |before|)
            && EntryOf(data, |before|) == m.entry
            && Following(data, |before|) == |before + Written(m)|
  {
    hide SizeAt, NameAt, Header;
    ReadsFields(before, m, after);
    var data := before + Written(m) + after;
    var pos := |before|;
    assert data[pos + HEADER..pos + HEADER + |m.entry.data|] == m.entry.data;
  }

  lemma NoEntries(data: seq<byte>)
    ensures Entries(data, |data|) == []
  {
  }

  lemma {:induction false} ReadsAll(before: seq<byte>, ms: seq<Member>)
    requires forall m :: m in ms ==> ValidMember(m)
    ensures Entries(before + WrittenAll(ms), |before|) == seq(|ms|, i requires 0 <= i < |ms| => ms[i].entry)
    decreases |ms|
  {
    hide Written, EntryOf, EntryAt, Following, ValidMember;
    var data := before + WrittenAll(ms);
    if ms == [] {
      assert data == before;
      NoEntries(before);
    } else {
      var longer := before + Written(ms[0]);
      assert data == longer + WrittenAll(ms[1..]);
      ReadsHeader(before, ms[0], WrittenAll(ms[1..]));
      ReadsAll(longer, ms[1..]);
    }
  }

  /** Reading what was written gives back the entries, names and contents, in order. */
  lemma RoundTrip(ms: seq<Member>)
    requires forall m :: m in ms ==> ValidMember(m)
    ensures Parsed(MAGIC + WrittenAll(ms)) == seq(|ms|, i requires 0 <= i < |ms| => ms[i].entry)
  {
    ReadsAll(MAGIC, ms);
    assert (MAGIC + WrittenAll(ms))[..8] == MAGIC;
  }
}
