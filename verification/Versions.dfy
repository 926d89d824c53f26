/** The order of package versions. */
module Versions {
  import opened Wrappers

  datatype Ordering = Less | Equal | Greater {
    function Flip(): Ordering {
      match this
      case Less => Greater
      case Equal => Equal
      case Greater => Less
    }
  }

  const U64_LIMIT := 0x1_0000_0000_0000_0000

  // ---------------------------------------------------------------------------
  // Segments
  // ---------------------------------------------------------------------------

  predicate Digit(c: char) {
    '0' <= c <= '9'
  }

  predicate AllDigits(s: string) {
    forall i :: 0 <= i < |s| ==> Digit(s[i])
  }

  function Value(s: string): nat
    requires AllDigits(s)
  {
    if s == [] then 0 else 10 * Value(s[..|s| - 1]) + (s[|s| - 1] - '0') as nat
  }

  /** A segment that `parse::<u64>` accepts; no segment holds a plus sign. */
  predicate Numeric(s: string) {
    s != [] && AllDigits(s) && Value(s) < U64_LIMIT
  }

  function NatOrder(a: nat, b: nat): Ordering {
    if a < b then Less else if a == b then Equal else Greater
  }

  function TextOrder(a: string, b: string): Ordering {
    if a == [] then (if b == [] then Equal else Less)
    else if b == [] then Greater
    else if a[0] < b[0] then Less
    else if a[0] > b[0] then Greater
    else TextOrder(a[1..], b[1..])
  }

  function SegmentOrder(a: string, b: string): Ordering {
    if Numeric(a) && Numeric(b) then NatOrder(Value(a), Value(b)) else TextOrder(a, b)
  }

  // ---------------------------------------------------------------------------
  // Splitting
  // ---------------------------------------------------------------------------

  predicate Separator(c: char) {
    c == '.' || c == '-' || c == '_' || c == '+'
  }

  function FirstSeparator(s: string): (i: nat)
    ensures i <= |s| && (i < |s| ==> Separator(s[i]))
    ensures forall j :: 0 <= j < i ==> !Separator(s[j])
  {
    if s == [] || Separator(s[0]) then 0 else 1 + FirstSeparator(s[1..])
  }

  /** A piece between separators, unless it is empty. */
  function Piece(s: string): seq<string> {
    if s == [] then [] else [s]
  }

  predicate Segments(parts: seq<string>) {
    forall i :: 0 <= i < |parts| ==> parts[i] != [] && forall c :: c in parts[i] ==> !Separator(c)
  }

  function Split(s: string): (parts: seq<string>)
    ensures Segments(parts)
    decreases |s|
  {
    var i := FirstSeparator(s);
    if i == |s| then Piece(s) else Piece(s[..i]) + Split(s[i + 1..])
  }

  function FirstColon(s: string): (i: nat)
    ensures i <= |s| && (i < |s| ==> s[i] == ':')
    ensures forall j :: 0 <= j < i ==> s[j] != ':'
  {
    if s == [] || s[0] == ':' then 0 else 1 + FirstColon(s[1..])
  }

  /** The version without a numeric epoch before its first colon. */
  function WithoutEpoch(version: string): string {
    var i := FirstColon(version);
    if 0 < i < |version| && AllDigits(version[..i]) then version[i + 1..] else version
  }

  /** `split_version` */
  function Parts(version: string): (parts: seq<string>)
    ensures Segments(parts)
  {
    Split(WithoutEpoch(version))
  }

  // ---------------------------------------------------------------------------
  // Comparing
  // ---------------------------------------------------------------------------

  /** The segment at a position; a missing one is zero. */
  function Part(parts: seq<string>, i: nat): string {
    if i < |parts| then parts[i] else "0"
  }

  function Longest(a: seq<string>, b: seq<string>): nat {
    if |a| > |b| then |a| else |b|
  }

  /** The first order of segments at positions `i` to `n` that is not `Equal`. */
  function OrderFrom(a: seq<string>, b: seq<string>, i: nat, n: nat): Ordering
    decreases n - i
  {
    if i >= n then Equal
    else
      var here := SegmentOrder(Part(a, i), Part(b, i));
      if here != Equal then here else OrderFrom(a, b, i + 1, n)
  }

  function Order(a: string, b: string): Ordering {
    OrderFrom(Parts(a), Parts(b), 0, Longest(Parts(a), Parts(b)))
  }

  /** `compare_versions` */
  method CompareVersions(a: string, b: string) returns (order: Ordering)
    ensures order == Order(a, b)
  {
    hide SegmentOrder, Part;
    var aParts, bParts := Parts(a), Parts(b);
    var n := Longest(aParts, bParts);
    for i := 0 to n
      invariant OrderFrom(aParts, bParts, 0, n) == OrderFrom(aParts, bParts, i, n)
    {
      var aPart, bPart := Part(aParts, i), Part(bParts, i);
      match SegmentOrder(aPart, bPart) {
        case Equal =>
        case Less => return Less;
        case Greater => return Greater;
      }
    }
    return Equal;
  }

  // ---------------------------------------------------------------------------
  // On all versions: the two directions agree
  // ---------------------------------------------------------------------------

  lemma {:induction false} TextFlips(a: string, b: string)
    ensures TextOrder(b, a) == TextOrder(a, b).Flip()
    ensures TextOrder(a, b) == Equal <==> a == b
    decreases |a|
  {
    if a != [] && b != [] {
      TextFlips(a[1..], b[1..]);
      assert a == [a[0]] + a[1..] && b == [b[0]] + b[1..];
    }
  }

  lemma SegmentFlips(a: string, b: string)
    ensures SegmentOrder(b, a) == SegmentOrder(a, b).Flip()
    ensures SegmentOrder(a, a) == Equal
  {
    hide Numeric;
    TextFlips(a, b);
    TextFlips(a, a);
  }

  lemma {:induction false} OrderFromFlips(a: seq<string>, b: seq<string>, i: nat, n: nat)
    ensures OrderFrom(b, a, i, n) == OrderFrom(a, b, i, n).Flip()
    decreases n - i
  {
    hide SegmentOrder, Part;
    if i < n {
      SegmentFlips(Part(a, i), Part(b, i));
      OrderFromFlips(a, b, i + 1, n);
    }
  }

  lemma OrderFlips(a: string, b: string)
    ensures Order(b, a) == Order(a, b).Flip()
  {
    hide OrderFrom, Parts;
    OrderFromFlips(Parts(a), Parts(b), 0, Longest(Parts(a), Parts(b)));
  }

  /** Looking at more positions than the versions have makes no difference. */
  lemma {:induction false} LookFurther(a: seq<string>, b: seq<string>, i: nat, n: nat)
    requires n >= Longest(a, b)
    ensures OrderFrom(a, b, i, n) == OrderFrom(a, b, i, Longest(a, b))
    decreases n - i
  {
    hide SegmentOrder;
    if i < n {
      if i >= |a| && i >= |b| {
        SegmentFlips("0", "0");
      }
      LookFurther(a, b, i + 1, n);
    }
  }

  // ---------------------------------------------------------------------------
  // On versions with numbers in the same places: a total preorder
  // ---------------------------------------------------------------------------

  /** The two have numbers at the same positions. */
  ghost predicate SameKinds(a: seq<string>, b: seq<string>) {
    forall i: nat :: Numeric(Part(a, i)) <==> Numeric(Part(b, i))
  }

  /** Every segment is a number of 64 bits. */
  predicate AllNumeric(parts: seq<string>) {
    forall i :: 0 <= i < |parts| ==> Numeric(parts[i])
  }

  lemma ZeroIsNumeric()
    ensures Numeric("0") && Value("0") == 0
  {
    assert "0"[..0] == [];
  }

  lemma NumericVersionsAreAlike(a: seq<string>, b: seq<string>)
    requires AllNumeric(a) && AllNumeric(b)
    ensures SameKinds(a, b)
  {
    hide Numeric;
    ZeroIsNumeric();
  }

  predicate AtMost(order: Ordering) {
    order != Greater
  }

  lemma {:induction false} TextTransitive(a: string, b: string, c: string)
    requires AtMost(TextOrder(a, b)) && AtMost(TextOrder(b, c))
    ensures AtMost(TextOrder(a, c))
    ensures TextOrder(a, c) == Equal ==> TextOrder(a, b) == Equal && TextOrder(b, c) == Equal
    decreases |a|
  {
    if a != [] && b != [] && c != [] && a[0] == b[0] == c[0] {
      TextTransitive(a[1..], b[1..], c[1..]);
    }
  }

  lemma SegmentTransitive(a: string, b: string, c: string)
    requires Numeric(a) == Numeric(b) == Numeric(c)
    requires AtMost(SegmentOrder(a, b)) && AtMost(SegmentOrder(b, c))
    ensures AtMost(SegmentOrder(a, c))
    ensures SegmentOrder(a, c) == Equal ==> SegmentOrder(a, b) == Equal && SegmentOrder(b, c) == Equal
  {
    if !Numeric(a) {
      hide Numeric;
      TextTransitive(a, b, c);
    }
  }

  lemma {:induction false} OrderFromTransitive(a: seq<string>, b: seq<string>, c: seq<string>, i: nat, n: nat)
    requires SameKinds(a, b) && SameKinds(b, c)
    requires AtMost(OrderFrom(a, b, i, n)) && AtMost(OrderFrom(b, c, i, n))
    ensures AtMost(OrderFrom(a, c, i, n))
    ensures OrderFrom(a, c, i, n) == Equal ==> OrderFrom(a, b, i, n) == Equal && OrderFrom(b, c, i, n) == Equal
    decreases n - i
  {
    hide SegmentOrder, Part, Numeric;
    if i < n {
      assert Numeric(Part(a, i)) <==> Numeric(Part(b, i));
      assert Numeric(Part(b, i)) <==> Numeric(Part(c, i));
      SegmentTransitive(Part(a, i), Part(b, i), Part(c, i));
      if SegmentOrder(Part(a, i), Part(b, i)) == Equal && SegmentOrder(Part(b, i), Part(c, i)) == Equal {
        EqualBothWays(Part(a, i), Part(b, i), Part(c, i));
        OrderFromTransitive(a, b, c, i + 1, n);
      }
    }
  }

  lemma EqualBothWays(a: string, b: string, c: string)
    requires Numeric(a) == Numeric(b) == Numeric(c)
    requires SegmentOrder(a, b) == Equal && SegmentOrder(b, c) == Equal
    ensures SegmentOrder(a, c) == Equal
  {
    if !Numeric(a) {
      hide Numeric;
      TextFlips(a, b);
      TextFlips(b, c);
    }
  }

  /** With numbers in the same places the order is transitive, and equality with it. */
  lemma OrderIsTransitive(a: string, b: string, c: string)
    requires SameKinds(Parts(a), Parts(b)) && SameKinds(Parts(b), Parts(c))
    requires AtMost(Order(a, b)) && AtMost(Order(b, c))
    ensures AtMost(Order(a, c))
    ensures Order(a, c) == Equal <==> Order(a, b) == Equal && Order(b, c) == Equal
  {
    hide OrderFrom, Parts, SameKinds;
    var x, y, z := Parts(a), Parts(b), Parts(c);
    var n := Longest(x, y) + Longest(y, z);
    LookFurther(x, y, 0, n);
    LookFurther(y, z, 0, n);
    LookFurther(x, z, 0, n);
    OrderFromTransitive(x, y, z, 0, n);
    if Order(a, b) == Equal && Order(b, c) == Equal {
      OrderFromFlips(x, y, 0, n);
      OrderFromFlips(y, z, 0, n);
      OrderFromFlips(x, z, 0, n);
      SameKindsFlips(x, y);
      SameKindsFlips(y, z);
      OrderFromTransitive(z, y, x, 0, n);
    }
  }

  lemma SameKindsFlips(a: seq<string>, b: seq<string>)
    requires SameKinds(a, b)
    ensures SameKinds(b, a)
  {
  }

  // ---------------------------------------------------------------------------
  // Numbers and words in the same place: cycles
  // ---------------------------------------------------------------------------

  lemma {:induction false} TextAfter(b: string, t: string, a: string)
    requires TextOrder(b, a) == Less && !(b <= a)
    ensures TextOrder(b + t, a) == Less
    decreases |b|
  {
    if b != [] && a != [] {
      assert (b + t)[0] == b[0] && (b + t)[1..] == b[1..] + t;
      assert b == [b[0]] + b[1..] && a == [a[0]] + a[1..];
      if b[0] == a[0] {
        TextAfter(b[1..], t, a[1..]);
      }
    }
  }

  lemma {:induction false} TextLonger(b: string, t: string)
    requires t != []
    ensures TextOrder(b, b + t) == Less
    decreases |b|
  {
    if b != [] {
      assert (b + t)[0] == b[0] && (b + t)[1..] == b[1..] + t;
      TextLonger(b[1..], t);
    } else {
      assert b + t == t;
    }
  }

  /** `a` not after `b`, `b` before `z`, and yet `z` before `a`. */
  predicate Cycle(a: string, b: string, z: string) {
    SegmentOrder(a, b) != Greater && SegmentOrder(b, z) == Less && SegmentOrder(z, a) == Less
  }

  /** Text that continues with a character before all digits comes before text that continues with a digit. */
  lemma {:induction false} TextBetween(b: string, a: string)
    requires b < a && AllDigits(a)
    ensures TextOrder(b + "!", a) == Less
    decreases |b|
  {
    assert (b + "!")[0] == if b == [] then '!' else b[0];
    if b != [] {
      assert (b + "!")[1..] == b[1..] + "!";
      assert b[1..] < a[1..];
      TextBetween(b[1..], a[1..]);
    } else {
      assert Digit(a[0]);
    }
  }

  /**
    Some word closes a cycle with two numbers exactly if the numbers and their texts
    are not in the same order: as 9 and 10 are not, nor 1 and 01, nor 00 and 0.
  */
  lemma CyclesWithWords(a: string, b: string)
    requires Numeric(a) && Numeric(b)
    ensures (exists z :: Segments([z]) && !Numeric(z) && Cycle(a, b, z))
            <==> Value(a) <= Value(b) && TextOrder(b, a) == Less
  {
    if Value(a) <= Value(b) && TextOrder(b, a) == Less {
      var z := ClosingWord(b);
      TextLonger(b, "!");
      if b <= a {
        TextFlips(a, b);
        TextBetween(b, a);
      } else {
        TextAfter(b, "!", a);
      }
      assert Cycle(a, b, z);
    }
    forall z | Segments([z]) && !Numeric(z) && Cycle(a, b, z)
      ensures Value(a) <= Value(b) && TextOrder(b, a) == Less
    {
      TextTransitive(b, z, a);
    }
  }

  lemma ClosingWord(b: string) returns (z: string)
    requires Numeric(b)
    ensures z == b + "!" && Segments([z]) && !Numeric(z)
  {
    z := b + "!";
    assert !Digit(z[|b|]);
  }

  predicate Plain(s: string) {
    forall c :: c in s ==> !Separator(c) && c != ':'
  }

  lemma NoSeparator(s: string)
    requires forall c :: c in s ==> !Separator(c)
    ensures FirstSeparator(s) == |s|
  {
  }

  lemma OnePart(a: string)
    requires Plain(a) && a != []
    ensures Parts(a) == [a]
  {
    hide Split;
    NoColon(a);
    NoSeparator(a);
    SplitLast(a);
  }

  /** Versions of one segment compare as their segments. */
  lemma OneSegment(a: string, b: string)
    requires Plain(a) && Plain(b) && a != [] && b != []
    ensures Order(a, b) == SegmentOrder(a, b)
  {
    hide SegmentOrder, Parts;
    OnePart(a);
    OnePart(b);
    assert OrderFrom([a], [b], 1, 1) == Equal;
  }

  /** Versions that no choice of a latest one can satisfy: 9 < 10 < 1a < 9. */
  lemma VersionCycle()
    ensures Order("9", "10") == Less && Order("10", "1a") == Less && Order("1a", "9") == Less
  {
    hide SegmentOrder;
    OneSegment("9", "10");
    OneSegment("10", "1a");
    OneSegment("1a", "9");
    SmallCycle();
  }

  lemma SmallCycle()
    ensures SegmentOrder("9", "10") == Less && SegmentOrder("10", "1a") == Less && SegmentOrder("1a", "9") == Less
  {
    assert "9"[..0] == [] && "10"[..0] == [] && "10"[..1] == "1" && "1"[..0] == [];
    assert Value("1") == 1 && Value("10") == 10 && Value("9") == 9;
    assert !Digit("1a"[1]);
    assert "10"[1..] == "0" && "1a"[1..] == "a";
  }

  // ---------------------------------------------------------------------------
  // Missing segments and epochs
  // ---------------------------------------------------------------------------

  lemma {:induction false} OrderBySegments(a: seq<string>, x: seq<string>, b: seq<string>, i: nat, n: nat)
    requires forall k: nat :: Part(a, k) == Part(x, k)
    ensures OrderFrom(a, b, i, n) == OrderFrom(x, b, i, n)
    decreases n - i
  {
    hide SegmentOrder, Part;
    if i < n {
      OrderBySegments(a, x, b, i + 1, n);
    }
  }

  lemma FirstSeparatorIs(s: string, i: nat)
    requires i < |s| && Separator(s[i]) && forall j :: 0 <= j < i ==> !Separator(s[j])
    ensures FirstSeparator(s) == i
  {
  }

  lemma SplitStep(s: string, i: nat)
    requires i < |s| && Separator(s[i]) && forall j :: 0 <= j < i ==> !Separator(s[j])
    ensures Split(s) == Piece(s[..i]) + Split(s[i + 1..])
  {
    FirstSeparatorIs(s, i);
  }

  lemma {:induction false} SplitAppend(s: string, t: string)
    ensures Split(s + "." + t) == Split(s) + Split(t)
    decreases |s|
  {
    hide FirstSeparator, Piece, Split;
    var i := FirstSeparator(s);
    var whole := s + "." + t;
    assert Separator(whole[|s|]) && forall j :: 0 <= j < |s| ==> whole[j] == s[j];
    SplitStep(whole, i);
    assert whole[..i] == s[..i];
    if i < |s| {
      assert whole[i + 1..] == s[i + 1..] + "." + t;
      SplitAppend(s[i + 1..], t);
      SplitStep(s, i);
    } else {
      assert whole[i + 1..] == t && s[..i] == s;
      SplitLast(s);
    }
  }

  lemma SplitLast(s: string)
    requires FirstSeparator(s) == |s|
    ensures Split(s) == Piece(s)
  {
  }

  lemma ZeroSuffix(a: string)
    ensures Parts(a + ".0") == Parts(a) + ["0"]
  {
    hide Split;
    var whole := a + ".0";
    var i := FirstColon(a);
    if i < |a| {
      FirstColonIs(whole, i);
      assert whole[..i] == a[..i] && whole[i + 1..] == a[i + 1..] + ".0";
    } else {
      NoColon(whole);
    }
    assert WithoutEpoch(whole) == WithoutEpoch(a) + ".0" == WithoutEpoch(a) + "." + "0";
    SplitAppend(WithoutEpoch(a), "0");
    assert Split("0") == ["0"] by {
      assert FirstSeparator("0") == 1;
      SplitLast("0");
    }
  }

  lemma FirstColonIs(s: string, i: nat)
    requires i < |s| && s[i] == ':' && forall j :: 0 <= j < i ==> s[j] != ':'
    ensures FirstColon(s) == i
  {
  }

  lemma NoColon(s: string)
    requires ':' !in s
    ensures FirstColon(s) == |s|
  {
  }

  /** A missing segment counts as zero: writing it out changes no comparison. */
  lemma ZeroSuffixChangesNothing(a: string, b: string)
    ensures Order(a + ".0", b) == Order(a, b)
  {
    hide OrderFrom, Parts;
    ZeroSuffix(a);
    var x, y, z := Parts(a), Parts(a + ".0"), Parts(b);
    var n := Longest(x, z) + Longest(y, z);
    LookFurther(x, z, 0, n);
    LookFurther(y, z, 0, n);
    OrderBySegments(y, x, z, 0, n);
  }

  /** Epochs do not take part in the order. */
  lemma EpochsAreIgnored(epoch: string, v: string, b: string)
    requires epoch != [] && AllDigits(epoch) && ':' !in v
    ensures Order(epoch + ":" + v, b) == Order(v, b)
  {
    hide OrderFrom, Split;
    var whole := epoch + ":" + v;
    assert ':' !in epoch by {
      assert !Digit(':');
    }
    FirstColonIs(whole, |epoch|);
    assert whole[..|epoch|] == epoch && whole[|epoch| + 1..] == v;
    NoColon(v);
  }
}
