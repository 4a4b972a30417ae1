/**
 * The pieces of the Java library that the verse templates lean on:
 * 32-bit ints, Integer.toString (what "%s" does with an int) and
 * String.formatted with a single argument.
 */
module Formatting {

  /** Java's `int`. */
  type int32 = x: int | -0x8000_0000 <= x < 0x8000_0000

  const MinInt32: int := -0x8000_0000
  const MaxInt32: int := 0x7fff_ffff

  predicate IsDigit(c: char) { '0' <= c <= '9' }

  predicate AllDigits(s: string) { forall i :: 0 <= i < |s| ==> IsDigit(s[i]) }

  function DigitChar(d: nat): (c: char)
    requires d < 10
    ensures IsDigit(c) && c as int - '0' as int == d
  {
    (d + '0' as int) as char
  }

  function DigitValue(c: char): nat
  {
    if IsDigit(c) then c as int - '0' as int else 0
  }

  /** The decimal digits of `n`, most significant first, without leading zeros. */
  function NatDigits(n: nat): (s: string)
    ensures |s| >= 1 && AllDigits(s)
    ensures s[0] == '0' ==> n == 0
    decreases n
  {
    if n < 10 then [DigitChar(n)] else NatDigits(n / 10) + [DigitChar(n % 10)]
  }

  /** Reads a string of decimal digits back as a number. */
  function ParseNat(s: string): nat
  {
    if s == [] then 0 else ParseNat(s[..|s| - 1]) * 10 + DigitValue(s[|s| - 1])
  }

  lemma {:induction false} ParseNatDigits(n: nat)
    ensures ParseNat(NatDigits(n)) == n
  {
    var s := NatDigits(n);
    if n >= 10 {
      assert s[..|s| - 1] == NatDigits(n / 10);
      ParseNatDigits(n / 10);
    }
  }

  /** Integer.toString: a minus sign for negative values, then the digits of the magnitude. */
  function Decimal(n: int): (s: string)
    ensures |s| >= 1
    ensures s[0] == '-' <==> n < 0
    ensures s[0] == '0' ==> n == 0
  {
    if n < 0 then "-" + NatDigits(-n) else NatDigits(n)
  }

  /** Integer.parseInt on the strings Decimal produces. */
  function ParseDecimal(s: string): int
  {
    if |s| > 0 && s[0] == '-' then -(ParseNat(s[1..]) as int) else ParseNat(s)
  }

  /** Rendering loses nothing: the number can be read back from its text. */
  lemma DecimalRoundTrip(n: int)
    ensures ParseDecimal(Decimal(n)) == n
  {
    if n < 0 {
      assert Decimal(n)[1..] == NatDigits(-n);
      ParseNatDigits(-n);
    } else {
      ParseNatDigits(n);
    }
  }

  /** Two different numbers never render to the same text. */
  lemma DecimalInjective(m: int, n: int)
    ensures Decimal(m) == Decimal(n) <==> m == n
  {
    if Decimal(m) == Decimal(n) {
      DecimalRoundTrip(m);
      DecimalRoundTrip(n);
    }
  }

  /** Whether `format` holds the conversion "%s". */
  predicate HasPlaceholder(format: string)
  {
    exists k :: 0 <= k < |format| - 1 && format[k] == '%' && format[k + 1] == 's'
  }

  /**
   * String.formatted with one argument, for formats whose only conversion
   * is a single "%s": the first "%s" is replaced by `arg`, and a format
   * with no conversion comes back unchanged, as Java returns it when the
   * argument is surplus.
   */
  function Formatted(format: string, arg: string): (r: string)
    ensures !HasPlaceholder(format) ==> r == format
    ensures HasPlaceholder(format) ==> |r| == |format| - 2 + |arg|
    decreases |format|
  {
    if |format| < 2 then format
    else if format[0] == '%' && format[1] == 's' then arg + format[2..]
    else
      assert HasPlaceholder(format) ==> HasPlaceholder(format[1..]) by {
        if HasPlaceholder(format) {
          var k :| 0 <= k < |format| - 1 && format[k] == '%' && format[k + 1] == 's';
          assert format[1..][k - 1] == '%' && format[1..][k] == 's';
        }
      }
      assert HasPlaceholder(format[1..]) ==> HasPlaceholder(format) by {
        if HasPlaceholder(format[1..]) {
          var k :| 0 <= k < |format[1..]| - 1 && format[1..][k] == '%' && format[1..][k + 1] == 's';
          assert format[k + 1] == '%' && format[k + 2] == 's';
        }
      }
      [format[0]] + Formatted(format[1..], arg)
  }

  /** A text without "%s" has none after its first character either. */
  lemma NoPlaceholderInTail(s: string)
    requires s != [] && !HasPlaceholder(s)
    ensures !HasPlaceholder(s[1..])
  {
    forall k | 0 <= k < |s| - 2
      ensures !(s[1..][k] == '%' && s[1..][k + 1] == 's')
    {
      assert s[1..][k] == s[k + 1] && s[1..][k + 1] == s[k + 2];
    }
  }

  /**
   * A format of the form prefix + "%s" + suffix with a non-empty prefix
   * free of "%s" does not start with the conversion, and its tail is the
   * same form with a shorter prefix.
   */
  lemma SplitTail(prefix: string, suffix: string)
    requires prefix != [] && !HasPlaceholder(prefix)
    ensures var format := prefix + "%s" + suffix;
            && format[0] == prefix[0]
            && !(format[0] == '%' && format[1] == 's')
            && format[1..] == prefix[1..] + "%s" + suffix
  {
    var format := prefix + "%s" + suffix;
    if |prefix| >= 2 {
      assert format[1] == prefix[1];
    }
  }

  /** One step of Formatted on a format that does not start with "%s". */
  lemma FormattedStep(format: string, arg: string)
    requires |format| >= 2 && !(format[0] == '%' && format[1] == 's')
    ensures Formatted(format, arg) == [format[0]] + Formatted(format[1..], arg)
  {
  }

  /** The argument takes the place of the first "%s", and the text around it is kept as it is. */
  lemma {:induction false} FormattedReplaces(prefix: string, suffix: string, arg: string)
    requires !HasPlaceholder(prefix)
    ensures Formatted(prefix + "%s" + suffix, arg) == prefix + arg + suffix
    decreases |prefix|
  {
    if prefix == [] {
      var format := prefix + "%s" + suffix;
      assert format[0] == '%' && format[1] == 's' && format[2..] == suffix;
    } else {
      NoPlaceholderInTail(prefix);
      SplitTail(prefix, suffix);
      FormattedReplaces(prefix[1..], suffix, arg);
      FormattedStep(prefix + "%s" + suffix, arg);
      assert prefix + arg + suffix == [prefix[0]] + (prefix[1..] + arg + suffix);
    }
  }
}
