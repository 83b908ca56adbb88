/** Character classes of Python's `str` methods, and its decimal numerals. */
module PythonText {

  import opened Options

  /** What `str.isspace`, `strip` and `split` take for white space. */
  predicate IsSpace(c: char) {
    || '\t' <= c <= '\r' || '\U{1c}' <= c <= ' ' || c == '\U{85}' || c == '\U{a0}' || c == '\U{1680}'
    || '\U{2000}' <= c <= '\U{200a}' || c == '\U{2028}' || c == '\U{2029}' || c == '\U{202f}' || c == '\U{205f}'
    || c == '\U{3000}'
  }

  /** Where `str.splitlines` ends a line. */
  predicate EndsLine(c: char) {
    '\n' <= c <= '\r' || '\U{1c}' <= c <= '\U{1e}' || c == '\U{85}' || c == '\U{2028}' || c == '\U{2029}'
  }

  /** The value of a decimal digit: ASCII, Arabic-Indic or Persian. */
  function DigitValue(c: char): Option<nat> {
    if '0' <= c <= '9' then Some(c as int - '0' as int)
    else if '\U{660}' <= c <= '\U{669}' then Some(c as int - 0x660)
    else if '\U{6f0}' <= c <= '\U{6f9}' then Some(c as int - 0x6f0)
    else None
  }

  predicate Numeric(s: string) {
    forall c | c in s :: DigitValue(c).Some?
  }

  function NumeralValue(s: string): nat
    requires Numeric(s)
  {
    if s == "" then 0 else NumeralValue(s[..|s| - 1]) * 10 + DigitValue(s[|s| - 1]).value
  }

  /** The digits of which these are the zeros stand in a row. */
  predicate IsZero(zero: char) {
    zero == '0' || zero == '\U{660}' || zero == '\U{6f0}'
  }

  /** `n` in the digits that start at `zero`. */
  function NumeralIn(zero: char, n: nat): string
    requires IsZero(zero)
  {
    var last := [(zero as int + n % 10) as char];
    if n < 10 then last else NumeralIn(zero, n / 10) + last
  }

  function Numeral(n: nat): string {
    NumeralIn('0', n)
  }

  /** `int` undoes `str`, and reads the same number in the digits of each script. */
  lemma {:induction false} NumeralRoundTrip(zero: char, n: nat)
    requires IsZero(zero)
    ensures var s := NumeralIn(zero, n);
            && s != "" && Numeric(s) && NumeralValue(s) == n
            && forall c | c in s :: zero <= c <= (zero as int + 9) as char
  {
    var last := [(zero as int + n % 10) as char];
    if n < 10 {
      assert last[..0] == "";
    } else {
      NumeralRoundTrip(zero, n / 10);
      var s := NumeralIn(zero, n / 10) + last;
      assert s[..|s| - 1] == NumeralIn(zero, n / 10);
    }
  }
}
