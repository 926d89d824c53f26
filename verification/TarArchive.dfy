/** Tar archives: cutting the end mark off so that another archive can follow. */
module TarArchive {
  import opened Bytes

  const BLOCK := 512

  predicate AllZero(s: seq<byte>) {
    forall i :: 0 <= i < |s| ==> s[i] == 0
  }

  function Zeros(n: nat): (s: seq<byte>)
    ensures |s| == n && AllZero(s)
  {
    seq(n, _ => 0)
  }

  lemma ZerosUnique(s: seq<byte>)
    requires AllZero(s)
    ensures s == Zeros(|s|)
  {
  }

  lemma ZerosSplit(a: nat, b: nat)
    ensures Zeros(a) + Zeros(b) == Zeros(a + b)
  {
  }

  // ---------------------------------------------------------------------------
  // Stripping
  // ---------------------------------------------------------------------------

  predicate EndsInZeroBlock(s: seq<byte>) {
    |s| >= BLOCK && AllZero(s[|s| - BLOCK..])
  }

  function StripBlocks(s: seq<byte>): (t: seq<byte>)
    ensures t <= s
    decreases |s|
  {
    if EndsInZeroBlock(s) then StripBlocks(s[..|s| - BLOCK]) else s
  }

  function Strip(s: seq<byte>): seq<byte> {
    if |s| < BLOCK * 2 then s else StripBlocks(s)
  }

  /** Removing any number of trailing zero blocks first changes nothing. */
  lemma {:induction false} StripBlocksZeros(p: seq<byte>, n: nat)
    ensures StripBlocks(p + Zeros(BLOCK * n)) == StripBlocks(p)
    decreases n
  {
    var s := p + Zeros(BLOCK * n);
    if n == 0 {
      assert s == p;
    } else {
      assert AllZero(s[|s| - BLOCK..]);
      ZerosSplit(BLOCK * (n - 1), BLOCK);
      assert s[..|s| - BLOCK] == p + Zeros(BLOCK * (n - 1));
      StripBlocksZeros(p, n - 1);
    }
  }

  lemma {:induction false} StripBlocksRemoves(s: seq<byte>) returns (n: nat)
    ensures s == StripBlocks(s) + Zeros(BLOCK * n)
    ensures !EndsInZeroBlock(StripBlocks(s))
    decreases |s|
  {
    if EndsInZeroBlock(s) {
      var front := s[..|s| - BLOCK];
      var m := StripBlocksRemoves(front);
      n := m + 1;
      ZerosUnique(s[|s| - BLOCK..]);
      ZerosSplit(BLOCK * m, BLOCK);
      assert s == front + Zeros(BLOCK);
    } else {
      n := 0;
      assert s == s + Zeros(0);
    }
  }

  /** `p` is `s` without some trailing zero blocks, and no further one can go. */
  ghost predicate Stripped(s: seq<byte>, p: seq<byte>) {
    !EndsInZeroBlock(p) && exists n: nat :: s == p + Zeros(BLOCK * n)
  }

  /** The strip of two blocks or more is the one text left when no zero block can be removed. */
  lemma StripIs(s: seq<byte>, p: seq<byte>)
    requires |s| >= BLOCK * 2
    ensures p == Strip(s) <==> Stripped(s, p)
  {
    var n := StripBlocksRemoves(s);
    assert Stripped(s, StripBlocks(s));
    if Stripped(s, p) {
      var m: nat :| s == p + Zeros(BLOCK * m);
      StripBlocksZeros(p, m);
    }
  }

  lemma StripTwice(s: seq<byte>)
    ensures Strip(Strip(s)) == Strip(s)
  {
    var _ := StripBlocksRemoves(s);
  }

  /** `strip_tar_eof` */
  method StripTarEof(data: seq<byte>) returns (stripped: seq<byte>)
    ensures stripped == Strip(data)
    ensures |data| >= BLOCK * 2 ==> Stripped(data, stripped)
  {
    if |data| < BLOCK * 2 {
      return data;
    }
    StripIs(data, Strip(data));
    var end := |data|;
    assert data[..end] == data;
    while end >= BLOCK
      invariant 0 <= end <= |data|
      invariant StripBlocks(data) == StripBlocks(data[..end])
    {
      var block := data[end - BLOCK..end];
      assert block == data[..end][end - BLOCK..];
      if AllZero(block) {
        assert data[..end][..end - BLOCK] == data[..end - BLOCK];
        end := end - BLOCK;
      } else {
        break;
      }
    }
    stripped := data[..end];
  }

  // ---------------------------------------------------------------------------
  // Reading and writing archives
  // ---------------------------------------------------------------------------

  /** A header block and the contents it announces. */
  datatype Entry = Entry(header: seq<byte>, data: seq<byte>)

  /** How a header block tells the size of the contents. */
  type SizeField = seq<byte> -> nat

  /** The bytes that fill the last block of `n` bytes of contents. */
  function Padding(n: nat): (p: nat)
    ensures p < BLOCK && (n + p) % BLOCK == 0
  {
    (BLOCK - n % BLOCK) % BLOCK
  }

  /** Entries up to the first zero block or incomplete entry. */
  function Read(size: SizeField, s: seq<byte>): seq<Entry>
    decreases |s|
  {
    if |s| < BLOCK || AllZero(s[..BLOCK]) then []
    else
      var n := size(s[..BLOCK]);
      var next := BLOCK + n + Padding(n);
      if next > |s| then []
      else [Entry(s[..BLOCK], s[BLOCK..BLOCK + n])] + Read(size, s[next..])
  }

  predicate ValidEntry(size: SizeField, e: Entry) {
    |e.header| == BLOCK && !AllZero(e.header) && size(e.header) == |e.data|
  }

  predicate ValidEntries(size: SizeField, es: seq<Entry>) {
    forall i :: 0 <= i < |es| ==> ValidEntry(size, es[i])
  }

  function Written(e: Entry): seq<byte> {
    e.header + e.data + Zeros(Padding(|e.data|))
  }

  function WrittenAll(es: seq<Entry>): seq<byte> {
    if es == [] then [] else Written(es[0]) + WrittenAll(es[1..])
  }

  /** The entries and `n` zero blocks; `tar::Builder` writes two. */
  function Archive(es: seq<Entry>, n: nat): seq<byte> {
    WrittenAll(es) + Zeros(BLOCK * n)
  }

  lemma ReadsEntry(size: SizeField, e: Entry, more: seq<byte>)
    requires ValidEntry(size, e)
    ensures Read(size, Written(e) + more) == [e] + Read(size, more)
  {
    hide AllZero, Padding;
    var s := Written(e) + more;
    assert s[..BLOCK] == e.header;
    assert s[BLOCK..BLOCK + |e.data|] == e.data;
    assert s[BLOCK + |e.data| + Padding(|e.data|)..] == more;
  }

  /** Entries followed by anything are read first, then whatever follows. */
  lemma {:induction false} ReadsEntries(size: SizeField, es: seq<Entry>, more: seq<byte>)
    requires ValidEntries(size, es)
    ensures Read(size, WrittenAll(es) + more) == es + Read(size, more)
    decreases |es|
  {
    hide Read, Written, ValidEntry;
    if es == [] {
      assert WrittenAll(es) + more == more;
    } else {
      assert WrittenAll(es) + more == Written(es[0]) + (WrittenAll(es[1..]) + more);
      ReadsEntry(size, es[0], WrittenAll(es[1..]) + more);
      ReadsEntries(size, es[1..], more);
      assert es == [es[0]] + es[1..];
    }
  }

  lemma ReadsNothing(size: SizeField, n: nat, more: seq<byte>)
    requires n > 0
    ensures Read(size, Zeros(BLOCK * n) + more) == []
  {
    var s := Zeros(BLOCK * n) + more;
    assert AllZero(s[..BLOCK]);
  }

  /** An archive with its end mark hides whatever follows it. */
  lemma EndMarkHides(size: SizeField, es: seq<Entry>, n: nat, more: seq<byte>)
    requires ValidEntries(size, es) && n > 0
    ensures Read(size, Archive(es, n) + more) == es
  {
    assert Archive(es, n) + more == WrittenAll(es) + (Zeros(BLOCK * n) + more);
    ReadsEntries(size, es, Zeros(BLOCK * n) + more);
    ReadsNothing(size, n, more);
  }

  // ---------------------------------------------------------------------------
  // When a stripped archive can be continued
  // ---------------------------------------------------------------------------

  /** The last block of the last entry is not all zero. */
  predicate LastBlockKept(es: seq<Entry>) {
    es == [] || !EndsInZeroBlock(Written(es[|es| - 1]))
  }

  lemma {:induction false} WrittenLast(es: seq<Entry>)
    requires es != []
    ensures WrittenAll(es) == WrittenAll(es[..|es| - 1]) + Written(es[|es| - 1])
    decreases |es|
  {
    hide Written;
    if |es| > 1 {
      WrittenLast(es[1..]);
      assert es[1..][..|es| - 2] == es[..|es| - 1][1..];
    } else {
      assert es[1..] == [];
    }
  }

  lemma EndsAlike(front: seq<byte>, back: seq<byte>)
    requires |back| >= BLOCK
    ensures EndsInZeroBlock(front + back) <==> EndsInZeroBlock(back)
  {
    assert (front + back)[|front + back| - BLOCK..] == back[|back| - BLOCK..];
  }

  /** Stripping removes the end mark and nothing else exactly if the last block is kept. */
  lemma StripRemovesEndMark(size: SizeField, es: seq<Entry>, n: nat)
    requires ValidEntries(size, es) && es != []
    ensures Strip(Archive(es, n)) == WrittenAll(es) <==> LastBlockKept(es)
  {
    hide StripBlocks, EndsInZeroBlock, Written, AllZero;
    var last := es[|es| - 1];
    WrittenLast(es);
    assert |Written(last)| >= BLOCK by { WrittenSize(size, last); }
    EndsAlike(WrittenAll(es[..|es| - 1]), Written(last));
    StripBlocksZeros(WrittenAll(es), n);
    NothingToStrip(WrittenAll(es));
    if |Archive(es, n)| < BLOCK * 2 {
      WrittenSize(size, last);
      HeaderOnly(size, last);
    }
  }

  lemma NothingToStrip(s: seq<byte>)
    ensures StripBlocks(s) == s <==> !EndsInZeroBlock(s)
  {
  }

  lemma WrittenSize(size: SizeField, e: Entry)
    requires ValidEntry(size, e)
    ensures |Written(e)| == BLOCK + |e.data| + Padding(|e.data|)
  {
  }

  lemma HeaderOnly(size: SizeField, e: Entry)
    requires ValidEntry(size, e) && |Written(e)| < BLOCK * 2
    ensures !EndsInZeroBlock(Written(e))
  {
    assert e.data == [];
    assert Written(e)[0..] == e.header;
  }

  /** Read back, an entry that lost its last block is gone. */
  lemma CutEntryIsGone(size: SizeField, e: Entry, k: nat)
    requires ValidEntry(size, e) && 0 < k && BLOCK * k + BLOCK <= |Written(e)|
    ensures Read(size, Written(e)[..|Written(e)| - BLOCK * k]) == []
  {
    hide AllZero, Padding;
    var s := Written(e)[..|Written(e)| - BLOCK * k];
    assert s[..BLOCK] == e.header;
  }

  /** The strip of an archive whose last block is zero takes whole blocks of its last entry. */
  lemma CutsLastEntry(size: SizeField, es: seq<Entry>, n: nat) returns (k: nat)
    requires ValidEntries(size, es) && !LastBlockKept(es)
    ensures var w := Written(es[|es| - 1]);
            && 0 < k && BLOCK * k + BLOCK <= |w|
            && Strip(Archive(es, n)) == WrittenAll(es[..|es| - 1]) + w[..|w| - BLOCK * k]
  {
    hide StripBlocks, EndsInZeroBlock, Written, AllZero;
    var last := es[|es| - 1];
    var front, w := WrittenAll(es[..|es| - 1]), Written(last);
    WrittenSize(size, last);
    if |w| < BLOCK * 2 {
      HeaderOnly(size, last);
    }
    k := StripBlocksRemoves(w);
    NothingToStrip(w);
    var cut := StripBlocks(w);
    assert |cut| >= BLOCK by {
      HeaderStays(size, last, cut, k);
    }
    assert cut == w[..|w| - BLOCK * k];
    WrittenLast(es);
    StripBlocksZeros(WrittenAll(es), n);
    assert WrittenAll(es) == front + cut + Zeros(BLOCK * k);
    StripBlocksZeros(front + cut, k);
    EndsAlike(front, cut);
    NothingToStrip(front + cut);
  }

  lemma HeaderStays(size: SizeField, e: Entry, cut: seq<byte>, k: nat)
    requires ValidEntry(size, e) && Written(e) == cut + Zeros(BLOCK * k)
    ensures |cut| >= BLOCK
  {
    WrittenSize(size, e);
    assert |Written(e)| % BLOCK == 0;
    var i :| 0 <= i < BLOCK && e.header[i] != 0;
    assert Written(e)[i] == e.header[i];
    assert (cut + Zeros(BLOCK * k))[i] != 0;
  }

  ghost predicate Continues(size: SizeField, es: seq<Entry>, stripped: seq<byte>) {
    forall more :: Read(size, stripped + more) == es + Read(size, more)
  }

  /**
    Whatever follows a stripped archive is read after its entries, exactly if the
    last block of its last entry is not all zero. A lone zero block is not stripped.
  */
  lemma StrippedContinues(size: SizeField, es: seq<Entry>, n: nat)
    requires ValidEntries(size, es) && (es == [] ==> n != 1)
    ensures Continues(size, es, Strip(Archive(es, n))) <==> LastBlockKept(es)
  {
    hide Read, Written, ValidEntry, AllZero;
    var stripped := Strip(Archive(es, n));
    if LastBlockKept(es) {
      assert stripped == WrittenAll(es) by {
        if es == [] {
          StripsToNothing(n);
          assert Archive(es, n) == Zeros(BLOCK * n);
        } else {
          StripRemovesEndMark(size, es, n);
        }
      }
      forall more ensures Read(size, stripped + more) == es + Read(size, more) {
        ReadsEntries(size, es, more);
      }
    } else {
      var k := CutsLastEntry(size, es, n);
      var front, w := es[..|es| - 1], Written(es[|es| - 1]);
      var cut := w[..|w| - BLOCK * k];
      ReadsEntries(size, front, cut);
      CutEntryIsGone(size, es[|es| - 1], k);
      assert stripped + [] == stripped && front + [] == front;
      assert Read(size, stripped + []) == front;
      assert |es + Read(size, [])| > |front|;
    }
  }

  lemma StripsToNothing(n: nat)
    requires n != 1
    ensures Strip(Zeros(BLOCK * n)) == []
  {
    assert [] + Zeros(BLOCK * n) == Zeros(BLOCK * n);
    StripBlocksZeros([], n);
  }
}
