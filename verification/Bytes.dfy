/** Bytes, ASCII blanks and decimal numbers, as the archive parsers read them. */
module Bytes {
  import opened Wrappers

  type byte = b: int | 0 <= b < 256

  /** The ASCII characters `trim` removes: tab to carriage return, and space. */
  predicate Blank(b: byte) {
    9 <= b <= 13 || b == 32
  }

  function TrimStart(s: seq<byte>): (t: seq<byte>)
    ensures |t| <= |s| && t == s[|s| - |t|..]
    ensures t != [] ==> !Blank(t[0])
  {
    if s != [] && Blank(s[0]) then TrimStart(s[1..]) else s
  }

  function TrimEnd(s: seq<byte>): (t: seq<byte>)
    ensures |t| <= |s| && t == s[..|t|]
    ensures t != [] ==> !Blank(t[|t| - 1])
  {
    if s != [] && Blank(s[|s| - 1]) then TrimEnd(s[..|s| - 1]) else s
  }

  function Trim(s: seq<byte>): seq<byte> {
    TrimEnd(TrimStart(s))
  }

  function Spaces(n: nat): (s: seq<byte>)
    ensures |s| == n && forall i :: 0 <= i < n ==> s[i] == 32
  {
    seq(n, _ => 32)
  }

  /** Text without outer blanks. */
  predicate Tight(s: seq<byte>) {
    s != [] ==> !Blank(s[0]) && !Blank(s[|s| - 1])
  }

  lemma {:induction false} TrimEndPadding(s: seq<byte>, n: nat)
    requires Tight(s)
    ensures TrimEnd(s + Spaces(n)) == s
    decreases n
  {
    if n == 0 {
      assert s + Spaces(0) == s;
    } else {
      assert (s + Spaces(n))[..|s| + n - 1] == s + Spaces(n - 1);
      TrimEndPadding(s, n - 1);
    }
  }

  /** Trimming undoes padding on the right. */
  lemma TrimPadding(s: seq<byte>, n: nat)
    requires Tight(s)
    ensures Trim(s + Spaces(n)) == s
  {
    if s != [] {
      assert (s + Spaces(n))[0] == s[0];
      TrimEndPadding(s, n);
    } else {
      assert s + Spaces(n) == Spaces(n);
      TrimAllBlank(Spaces(n));
    }
  }

  lemma {:induction false} TrimAllBlank(s: seq<byte>)
    requires forall i :: 0 <= i < |s| ==> Blank(s[i])
    ensures TrimStart(s) == []
  {
    if s != [] {
      TrimAllBlank(s[1..]);
    }
  }

  // ---------------------------------------------------------------------------
  // Decimal numbers
  // ---------------------------------------------------------------------------

  predicate Digit(b: byte) {
    48 <= b <= 57
  }

  predicate AllDigits(s: seq<byte>) {
    forall i :: 0 <= i < |s| ==> Digit(s[i])
  }

  function Value(s: seq<byte>): nat
    requires AllDigits(s)
  {
    if s == [] then 0 else 10 * Value(s[..|s| - 1]) + (s[|s| - 1] - 48)
  }

  /** `str::parse` for an unsigned integer too short to overflow: an optional plus sign and digits. */
  function ParseNumber(s: seq<byte>): Option<nat> {
    var digits := if s != [] && s[0] == 43 then s[1..] else s;
    if digits != [] && AllDigits(digits) then Some(Value(digits)) else None
  }

  /** The number in decimal without leading zeros. */
  function Decimal(n: nat): (s: seq<byte>)
    ensures s != [] && AllDigits(s)
    ensures Value(s) == n
  {
    if n < 10 then [(48 + n) as byte]
    else
      var front := Decimal(n / 10);
      var s := front + [(48 + n % 10) as byte];
      assert s[..|s| - 1] == front;
      s
  }

  function Pow10(k: nat): nat {
    if k == 0 then 1 else 10 * Pow10(k - 1)
  }

  lemma {:induction false} DecimalWidth(n: nat, k: nat)
    requires k > 0 && n < Pow10(k)
    ensures |Decimal(n)| <= k
    decreases k
  {
    if n >= 10 {
      assert k > 1 && n / 10 < Pow10(k - 1);
      DecimalWidth(n / 10, k - 1);
    }
  }

  lemma ParseDecimal(n: nat)
    ensures ParseNumber(Decimal(n)) == Some(n) && Tight(Decimal(n))
  {
    assert Digit(Decimal(n)[0]);
  }
}
