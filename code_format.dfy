/** Verification codes: `String.format("%06d", new Random().nextInt(999999))`. */
module CodeFormat {

  /** Number of characters of every issued code. */
  const CODE_LENGTH: nat := 6

  /** The exclusive bound passed to `Random.nextInt`: the drawn value lies in [0, 999998]. */
  const CODE_BOUND: nat := 999999

  function Pow10(n: nat): nat {
    if n == 0 then 1 else 10 * Pow10(n - 1)
  }

  predicate IsDigit(c: char) {
    '0' <= c <= '9'
  }

  predicate AllDigits(s: string) {
    forall i :: 0 <= i < |s| ==> IsDigit(s[i])
  }

  function DigitChar(d: nat): (c: char)
    requires d < 10
    ensures IsDigit(c)
  {
    (48 + d) as char
  }

  function DigitValue(c: char): nat
    requires IsDigit(c)
  {
    c as int - 48
  }

  /** The number a string of decimal digits denotes (leading zeros allowed). */
  function DecimalValue(s: string): nat
    requires AllDigits(s)
  {
    if |s| == 0 then 0 else DecimalValue(s[..|s| - 1]) * 10 + DigitValue(s[|s| - 1])
  }

  /** The last `width` decimal digits of `n`, padded on the left with zeros (`%0<width>d`
      for a value that fits in `width` digits). */
  function ZeroPad(n: nat, width: nat): (s: string)
    ensures |s| == width
    ensures AllDigits(s)
  {
    if width == 0 then "" else ZeroPad(n / 10, width - 1) + [DigitChar(n % 10)]
  }

  /** A value that fits in `width` digits is read back from its padded form. */
  lemma {:induction false} ZeroPadValue(n: nat, width: nat)
    requires n < Pow10(width)
    ensures DecimalValue(ZeroPad(n, width)) == n
  {
    if width > 0 {
      var s := ZeroPad(n, width);
      assert s[..|s| - 1] == ZeroPad(n / 10, width - 1);
      assert s[|s| - 1] == DigitChar(n % 10);
      ZeroPadValue(n / 10, width - 1);
    }
  }

  /** `String.format("%06d", n)`. */
  function FormatCode(n: nat): (code: string)
    requires n < Pow10(CODE_LENGTH)
    ensures |code| == CODE_LENGTH
    ensures AllDigits(code)
  {
    ZeroPad(n, CODE_LENGTH)
  }

  /** The formatted code denotes exactly the drawn number. */
  lemma FormatCodeRoundTrip(n: nat)
    requires n < Pow10(CODE_LENGTH)
    ensures DecimalValue(FormatCode(n)) == n
  {
    ZeroPadValue(n, CODE_LENGTH);
  }

  /** Distinct draws give distinct codes. */
  lemma FormatCodeInjective(a: nat, b: nat)
    requires a < Pow10(CODE_LENGTH) && b < Pow10(CODE_LENGTH)
    requires FormatCode(a) == FormatCode(b)
    ensures a == b
  {
    FormatCodeRoundTrip(a);
    FormatCodeRoundTrip(b);
  }

  /** Every code drawn with `nextInt(999999)` is six digits and is never "999999". */
  lemma IssuedCodeShape(r: nat)
    requires r < CODE_BOUND
    ensures |FormatCode(r)| == 6 && AllDigits(FormatCode(r))
    ensures FormatCode(r) != "999999"
  {
    FormatCodeRoundTrip(r);
    // the value of "999999", one digit at a time
    assert "9"[..0] == "";
    assert "99"[..1] == "9" && DecimalValue("99") == 99;
    assert "999"[..2] == "99" && DecimalValue("999") == 999;
    assert "9999"[..3] == "999" && DecimalValue("9999") == 9999;
    assert "99999"[..4] == "9999" && DecimalValue("99999") == 99999;
    assert "999999"[..5] == "99999" && DecimalValue("999999") == 999999;
  }
}
