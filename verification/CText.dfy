/** C strings as byte sequences, and the decimal text that sprintf and atol use. */
module CText {
  type Byte = b: int | 0 <= b < 256

  /** The characters of a C string, without its terminating null. */
  type CString = s: seq<Byte> | 0 !in s

  const SPACE: Byte := 32
  const NEWLINE: Byte := 10
  const ZERO: Byte := 48
  const MINUS: Byte := 45
  const PLUS: Byte := 43

  predicate IsDigit(c: Byte) { 48 <= c <= 57 }

  predicate IsSpace(c: Byte) { c == 32 || 9 <= c <= 13 }

  function Blanks(n: nat): (r: CString)
    ensures |r| == n && forall i :: 0 <= i < n ==> r[i] == SPACE
  {
    seq(n, i => SPACE)
  }

  predicate AllBlank(s: seq<Byte>) { forall c :: c in s ==> c == SPACE }

  function Pow10(w: nat): (r: nat)
    ensures r >= 1
  {
    if w == 0 then 1 else 10 * Pow10(w - 1)
  }

  function DigitCount(n: nat): (r: nat)
    ensures r >= 1
  {
    if n < 10 then 1 else 1 + DigitCount(n / 10)
  }

  /** The text "%lld" prints for a non-negative value. */
  function Decimal(n: nat): (r: CString)
    ensures |r| == DigitCount(n) && forall i :: 0 <= i < |r| ==> IsDigit(r[i])
  {
    if n < 10 then [ZERO + n] else Decimal(n / 10) + [ZERO + n % 10]
  }

  /** The text "%*lld" prints: right-aligned in at least `width` characters. */
  function Field(n: nat, width: nat): (r: CString)
    ensures |r| >= width
  {
    var d := Decimal(n);
    if |d| >= width then d else Blanks(width - |d|) + d
  }

  function SkipSpace(s: seq<Byte>): seq<Byte> {
    if s != [] && IsSpace(s[0]) then SkipSpace(s[1..]) else s
  }

  /** Value of the digits at the front of `s`, continuing from `acc`. */
  function LeadingDigits(s: seq<Byte>, acc: nat): nat {
    if s != [] && IsDigit(s[0]) then LeadingDigits(s[1..], 10 * acc + (s[0] - ZERO)) else acc
  }

  /** atol: leading white space, an optional sign, then digits up to the first other character. */
  function Atol(s: seq<Byte>): int {
    var t := SkipSpace(s);
    if t != [] && t[0] == MINUS then 0 - LeadingDigits(t[1..], 0)
    else if t != [] && t[0] == PLUS then LeadingDigits(t[1..], 0)
    else LeadingDigits(t, 0)
  }

  /** Position of the first `c` in `s`, or |s|: strchr. */
  function Find(s: seq<Byte>, c: Byte): (i: nat)
    ensures i <= |s| && forall k :: 0 <= k < i ==> s[k] != c
    ensures i < |s| ==> s[i] == c
    ensures i == |s| <==> c !in s
  {
    if s == [] then 0
    else if s[0] == c then 0
    else
      assert s == [s[0]] + s[1..];
      1 + Find(s[1..], c)
  }

  lemma {:induction false} DecimalWidth(n: nat, w: nat)
    requires n < Pow10(w) && w >= 1
    ensures |Decimal(n)| <= w
  {
    if n >= 10 {
      assert w >= 2 by { assert Pow10(1) == 10 * Pow10(0); }
      assert n / 10 < Pow10(w - 1);
      DecimalWidth(n / 10, w - 1);
    }
  }

  lemma {:induction false} LeadingDigitsSplit(s: seq<Byte>, t: seq<Byte>, acc: nat)
    requires forall i :: 0 <= i < |s| ==> IsDigit(s[i])
    ensures LeadingDigits(s + t, acc) == LeadingDigits(t, LeadingDigits(s, acc))
  {
    if s == [] {
      assert s + t == t;
    } else {
      assert (s + t)[1..] == s[1..] + t;
      LeadingDigitsSplit(s[1..], t, 10 * acc + (s[0] - ZERO));
    }
  }

  lemma {:induction false} DecimalValue(n: nat)
    ensures LeadingDigits(Decimal(n), 0) == n
  {
    if n >= 10 {
      DecimalValue(n / 10);
      LeadingDigitsSplit(Decimal(n / 10), [ZERO + n % 10], 0);
      assert LeadingDigits([ZERO + n % 10], n / 10) == 10 * (n / 10) + n % 10;
    }
  }

  lemma {:induction false} SkipBlanks(k: nat, t: seq<Byte>)
    requires t != [] && !IsSpace(t[0])
    ensures SkipSpace(Blanks(k) + t) == t
  {
    if k == 0 {
      assert Blanks(0) + t == t;
    } else {
      assert (Blanks(k) + t)[1..] == Blanks(k - 1) + t;
      SkipBlanks(k - 1, t);
    }
  }

  /** A printed field, at any width, reads back as the value that was printed. */
  lemma FieldRoundTrip(n: nat, width: nat)
    ensures Atol(Field(n, width)) == n
    ensures Atol(Decimal(n)) == n
  {
    var d := Decimal(n);
    DecimalValue(n);
    assert !IsSpace(d[0]);
    if |d| < width {
      SkipBlanks(width - |d|, d);
    }
  }

  lemma FieldWidth(n: nat, width: nat)
    requires n < Pow10(width) && width >= 1
    ensures |Field(n, width)| == width
  {
    DecimalWidth(n, width);
  }
}
