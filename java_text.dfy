/**
 * Java's `long` and its decimal text: what `Long.toString` produces and what string
 * concatenation (`"..." + id`) writes for a `Long` reference, `null` included.
 * The service builds its request URLs and its not-found message this way.
 */
module JavaText {
  import opened Wrappers

  const LONG_MIN: int := -0x8000_0000_0000_0000
  const LONG_MAX: int := 0x7FFF_FFFF_FFFF_FFFF

  /** A value of Java's 64-bit two's-complement `long` (a non-null `Long`). */
  type Long = x: int | LONG_MIN <= x <= LONG_MAX

  predicate IsDigit(c: char) { '0' <= c <= '9' }

  predicate AllDigits(s: string) { forall i :: 0 <= i < |s| ==> IsDigit(s[i]) }

  /** Decimal digits with no leading zero: the only digit strings `Long.toString` writes. */
  predicate CanonicalDigits(s: string)
  {
    |s| >= 1 && AllDigits(s) && (s[0] == '0' ==> |s| == 1)
  }

  function DigitValue(c: char): (d: nat)
    requires IsDigit(c)
    ensures d < 10
  {
    c as int - '0' as int
  }

  function DigitChar(d: nat): (c: char)
    requires d < 10
    ensures IsDigit(c) && DigitValue(c) == d
  {
    ('0' as int + d) as char
  }

  /** The decimal digits of n, most significant first. */
  function Decimal(n: nat): (s: string)
    ensures CanonicalDigits(s)
    ensures s[0] == '0' <==> n == 0
    ensures |s| == 1 <==> n < 10
  {
    if n < 10 then [DigitChar(n)] else Decimal(n / 10) + [DigitChar(n % 10)]
  }

  /** The number a digit string denotes (leading zeros allowed). */
  function DecimalValue(s: string): nat
    requires AllDigits(s)
  {
    if s == [] then 0 else DecimalValue(s[..|s| - 1]) * 10 + DigitValue(s[|s| - 1])
  }

  /** `Long.toString(n)`: a minus sign for negative values, then the digits of |n|. */
  function LongToString(n: Long): (s: string)
    ensures |s| >= 1 && (s[0] == '-' <==> n < 0)
    ensures n < 0 ==> CanonicalDigits(s[1..]) && s[1] != '0' && DecimalValue(s[1..]) == -(n as int)
    ensures n >= 0 ==> CanonicalDigits(s) && DecimalValue(s) == n
  {
    DecimalRoundTrip(if n < 0 then -(n as int) else n);
    if n < 0 then "-" + Decimal(-(n as int)) else Decimal(n)
  }

  /** What `"..." + x` appends for a `Long` reference x: "null", or `Long.toString`. */
  function BoxedLongToString(x: Option<Long>): (s: string)
    ensures s == "null" <==> x.None?
    ensures x.Some? ==> |s| >= 1 && (s[0] == '-' || IsDigit(s[0]))
  {
    match x
    case None => "null"
    case Some(n) => LongToString(n)
  }

  /** Reads back the text `Long.toString` writes; None for any other string. */
  function ParseLong(s: string): (r: Option<Long>)
  {
    if |s| >= 2 && s[0] == '-' && s[1] != '0' && CanonicalDigits(s[1..]) && DecimalValue(s[1..]) <= -LONG_MIN then
      Some(0 - DecimalValue(s[1..]) as int)
    else if CanonicalDigits(s) && DecimalValue(s) <= LONG_MAX then
      Some(DecimalValue(s))
    else
      None
  }

  /** Reads back the text `BoxedLongToString` writes: Some(None) for "null". */
  function ParseBoxedLong(s: string): (r: Option<Option<Long>>)
  {
    if s == "null" then Some(None)
    else match ParseLong(s)
      case None => None
      case Some(n) => Some(Some(n))
  }

  lemma {:induction false} DecimalRoundTrip(n: nat)
    ensures DecimalValue(Decimal(n)) == n
  {
    if n >= 10 {
      var s := Decimal(n);
      assert s[..|s| - 1] == Decimal(n / 10);
      DecimalRoundTrip(n / 10);
    }
  }

  /** Every canonical digit string is the decimal text of its own value. */
  lemma {:induction false} DecimalOfValue(s: string)
    requires CanonicalDigits(s)
    ensures Decimal(DecimalValue(s)) == s
    decreases |s|
  {
    var last := s[|s| - 1];
    var d := DigitValue(last);
    if |s| == 1 {
      assert s[..0] == [];
      assert DigitChar(d) == last;
    } else {
      var t := s[..|s| - 1];
      assert t[0] == s[0];
      assert CanonicalDigits(t);
      DecimalOfValue(t);
      var v := DecimalValue(t);
      assert Decimal(v)[0] != '0';
      var w := DecimalValue(s);
      assert w == v * 10 + d;
      assert w / 10 == v && w % 10 == d;
      assert DigitChar(d) == last;
      assert s == t + [last];
    }
  }

  lemma LongRoundTrip(n: Long)
    ensures ParseLong(LongToString(n)) == Some(n)
  {
  }

  /** Parsing accepts only canonical text: whatever it reads back, `Long.toString` writes. */
  lemma ParseLongCanonical(s: string)
    requires ParseLong(s).Some?
    ensures LongToString(ParseLong(s).value) == s
  {
    if |s| >= 2 && s[0] == '-' && s[1] != '0' && CanonicalDigits(s[1..]) && DecimalValue(s[1..]) <= -LONG_MIN {
      DecimalOfValue(s[1..]);
      assert DecimalValue(s[1..]) != 0;
      assert s == "-" + s[1..];
    } else {
      DecimalOfValue(s);
    }
  }

  lemma BoxedLongRoundTrip(x: Option<Long>)
    ensures ParseBoxedLong(BoxedLongToString(x)) == Some(x)
  {
  }

  lemma ParseBoxedLongCanonical(s: string)
    requires ParseBoxedLong(s).Some?
    ensures BoxedLongToString(ParseBoxedLong(s).value) == s
  {
    if s != "null" {
      ParseLongCanonical(s);
    }
  }

  /** Distinct ids print as distinct text. */
  lemma BoxedLongToStringInjective(a: Option<Long>, b: Option<Long>)
    ensures BoxedLongToString(a) == BoxedLongToString(b) <==> a == b
  {
  }
}
