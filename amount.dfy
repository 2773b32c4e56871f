/** Reading an amount typed into a text box.

    The program calls `str::parse::<f64>()` on the buffer and substitutes `0.0` when that
    fails. Here the parse is a total function returning an `Option`, and the substitution of
    zero is written at each call site (see module Update). The accepted text is the decimal
    part of Rust's float grammar: an optional sign, then digits with at most one `.`, and at
    least one digit. Exponents, `inf` and `NaN` are not accepted by this model. */
module Amount {
  import opened Options

  predicate IsDigit(c: char) {
    '0' <= c <= '9'
  }

  predicate AllDigits(s: string) {
    s == [] || (AllDigits(s[..|s| - 1]) && IsDigit(s[|s| - 1]))
  }

  /** The value of a string of decimal digits, most significant first. */
  function DigitsValue(s: string): nat
    requires AllDigits(s)
  {
    if s == [] then 0
    else 10 * DigitsValue(s[..|s| - 1]) + (s[|s| - 1] as int - '0' as int)
  }

  function Pow10(k: nat): (p: nat)
    ensures p >= 1
  {
    if k == 0 then 1 else 10 * Pow10(k - 1)
  }

  /** The position of the first `.` in `s`, or `|s|` when there is none. */
  function DotIndex(s: string): (k: nat)
    ensures k <= |s|
    ensures k < |s| ==> s[k] == '.'
  {
    if s == [] || s[0] == '.' then 0 else 1 + DotIndex(s[1..])
  }

  /** An unsigned decimal numeral: digits, optionally a `.` and more digits, with at least
      one digit in all (so `5`, `5.`, `.5` and `5.25` are accepted, `.` is not). */
  function ParseUnsigned(s: string): Option<real>
  {
    var k := DotIndex(s);
    var whole := s[..k];
    var frac := if k < |s| then s[k + 1..] else [];
    if AllDigits(whole) && AllDigits(frac) && |whole| + |frac| > 0 then
      Some(DigitsValue(whole) as real + DigitsValue(frac) as real / Pow10(|frac|) as real)
    else
      None
  }

  /** `s.parse::<f64>()`, with `None` standing for the parse error. Empty text never parses,
      and neither does a lone sign. */
  function ParseAmount(s: string): (r: Option<real>)
    ensures s == [] ==> r == None
    ensures s == "-" || s == "+" ==> r == None
  {
    var signed := |s| > 0 && (s[0] == '-' || s[0] == '+');
    var negative := signed && s[0] == '-';
    match ParseUnsigned(if signed then s[1..] else s)
    case Some(v) => Some(if negative then -v else v)
    case None => None
  }

  /** The decimal numeral of a whole amount, as a user types it. */
  function WholeNumeral(n: nat): (s: string)
    ensures |s| >= 1
  {
    if n < 10 then ['0' + n as char]
    else WholeNumeral(n / 10) + ['0' + (n % 10) as char]
  }

  lemma {:induction false} WholeNumeralDigits(n: nat)
    ensures AllDigits(WholeNumeral(n))
    ensures DigitsValue(WholeNumeral(n)) == n
  {
    var s := WholeNumeral(n);
    var d := if n < 10 then n else n % 10;
    assert s[|s| - 1] as int == '0' as int + d;
    assert IsDigit(s[|s| - 1]);
    if n < 10 {
      assert s[..|s| - 1] == [] && AllDigits([]);
    } else {
      WholeNumeralDigits(n / 10);
      assert s[..|s| - 1] == WholeNumeral(n / 10);
    }
  }

  lemma {:induction false} DigitsAt(s: string)
    requires AllDigits(s)
    ensures forall i :: 0 <= i < |s| ==> IsDigit(s[i])
  {
    if s != [] {
      DigitsAt(s[..|s| - 1]);
      assert forall i :: 0 <= i < |s| - 1 ==> s[i] == s[..|s| - 1][i];
    }
  }

  lemma {:induction false} NoDotInDigits(s: string)
    requires forall i :: 0 <= i < |s| ==> IsDigit(s[i])
    ensures DotIndex(s) == |s|
  {
    if s != [] {
      assert forall i :: 0 <= i < |s| - 1 ==> s[1..][i] == s[i + 1];
      NoDotInDigits(s[1..]);
    }
  }

  /** Typing a whole amount in decimal yields exactly that amount. */
  lemma ParseWholeNumeral(n: nat)
    ensures ParseAmount(WholeNumeral(n)) == Some(n as real)
  {
    var s := WholeNumeral(n);
    WholeNumeralDigits(n);
    DigitsAt(s);
    NoDotInDigits(s);
    assert s[..|s|] == s;
    assert s[0] != '-' && s[0] != '+';
  }

  /** A leading minus sign negates the amount, and a leading plus sign leaves it alone. */
  lemma ParseSigned(s: string)
    requires ParseUnsigned(s).Some?
    ensures ParseAmount("-" + s) == Some(-ParseUnsigned(s).value)
    ensures ParseAmount("+" + s) == ParseUnsigned(s)
  {
    assert ("-" + s)[1..] == s;
    assert ("+" + s)[1..] == s;
  }
}
