/** JavaScript numbers restricted to integers: `Number(string)`, `Number.isNaN`,
    `String(n)` and the two-digit zero padding `String(n).padStart(2, "0")`. */
module Numbers {
  import Strings

  /** A JavaScript number in this model: an integer, or `NaN`. */
  datatype Num = NaN | Int(v: int) {
    /** `a + b`; `NaN` absorbs. */
    function Plus(other: Num): Num {
      if NaN? || other.NaN? then NaN else Int(v + other.v)
    }
  }

  predicate IsDigit(c: char) { '0' <= c <= '9' }

  /** The string is non-empty and made of decimal digits only. */
  predicate AllDigits(s: string) {
    |s| > 0 && forall i :: 0 <= i < |s| ==> IsDigit(s[i])
  }

  function DigitChar(d: nat): (c: char)
    requires d < 10
    ensures IsDigit(c) && c as int - '0' as int == d
  {
    ('0' as int + d) as char
  }

  /** The value of a string of decimal digits, most significant first. */
  function DigitsValue(s: string): nat
    requires forall i :: 0 <= i < |s| ==> IsDigit(s[i])
  {
    if s == [] then 0
    else
      assert IsDigit(s[|s| - 1]);
      DigitsValue(s[..|s| - 1]) * 10 + (s[|s| - 1] as int - '0' as int)
  }

  function Pow10(n: nat): nat {
    if n == 0 then 1 else 10 * Pow10(n - 1)
  }

  /** A string of `k` digits has a value below 10^k. */
  lemma {:induction false} DigitsValueBound(s: string)
    requires forall i :: 0 <= i < |s| ==> IsDigit(s[i])
    ensures DigitsValue(s) < Pow10(|s|)
  {
    if s != [] {
      DigitsValueBound(s[..|s| - 1]);
    }
  }

  /** `Number(t)` for a string with no white space at either end. */
  function ParseLiteral(t: string): Num {
    if t == [] then Int(0)
    else if t[0] == '-' && AllDigits(t[1..]) then Int(0 - DigitsValue(t[1..]))
    else if t[0] == '+' && AllDigits(t[1..]) then Int(DigitsValue(t[1..]))
    else if AllDigits(t) then Int(DigitsValue(t))
    else NaN
  }

  /** `Number(s)`: white space at either end is ignored. */
  function ToNumber(s: string): Num
    decreases |s|
  {
    if s != [] && Strings.IsSpace(s[0]) then ToNumber(s[1..])
    else if s != [] && Strings.IsSpace(s[|s| - 1]) then ToNumber(s[..|s| - 1])
    else ParseLiteral(s)
  }

  /** `Number(s)` is the literal `s.trim()` read as a number. */
  lemma {:induction false} ToNumberIsParseOfTrim(s: string)
    ensures ToNumber(s) == ParseLiteral(Strings.Trim(s))
    decreases |s|
  {
    if s != [] && Strings.IsSpace(s[0]) {
      ToNumberIsParseOfTrim(s[1..]);
      Strings.TrimDropsLeadingSpace(s);
    } else if s != [] && Strings.IsSpace(s[|s| - 1]) {
      ToNumberIsParseOfTrim(s[..|s| - 1]);
      Strings.TrimDropsTrailingSpace(s);
    } else {
      Strings.TrimOfTrimmed(s);
    }
  }

  /** What `Number` accepts: a blank string is 0, plain digits are their value, and any
      other number is a sign followed by digits. */
  lemma ToNumberShape(s: string)
    ensures Strings.IsBlank(s) ==> ToNumber(s) == Int(0)
    ensures AllDigits(Strings.Trim(s)) ==> ToNumber(s) == Int(DigitsValue(Strings.Trim(s)))
    ensures ToNumber(s).Int? && !Strings.IsBlank(s) ==>
      var t := Strings.Trim(s);
      AllDigits(t) || (|t| > 1 && t[0] in "+-" && AllDigits(t[1..]))
  {
    ToNumberIsParseOfTrim(s);
  }

  /** `String(n)` for a natural number: its decimal digits without leading zeros. */
  function NatToString(n: nat): (s: string)
    ensures AllDigits(s)
    ensures DigitsValue(s) == n
    ensures s[0] == '0' ==> n == 0
  {
    if n < 10 then [DigitChar(n)]
    else
      var p := NatToString(n / 10);
      var s := p + [DigitChar(n % 10)];
      assert s[..|s| - 1] == p;
      s
  }

  /** `String(n)` for an integer. */
  function IntToString(n: int): (s: string)
    ensures |s| > 0
    ensures n >= 0 ==> s == NatToString(n)
    ensures n < 0 ==> s == "-" + NatToString(-n)
  {
    if n < 0 then "-" + NatToString(-n) else NatToString(n)
  }

  /** `String(n)` starts with a digit or a minus sign, so it is never blank. */
  lemma IntToStringShape(n: int)
    ensures IsDigit(IntToString(n)[0]) || IntToString(n)[0] == '-'
    ensures !Strings.IsBlank(IntToString(n))
  {
    assert !Strings.IsSpace(IntToString(n)[0]);
  }

  /** Reading back what `String(n)` printed gives `n` again: `Number(String(n)) === n`. */
  lemma NumberOfString(n: int)
    ensures ToNumber(IntToString(n)) == Int(n)
  {
    var s := IntToString(n);
    assert !Strings.IsSpace(s[0]) && !Strings.IsSpace(s[|s| - 1]);
    Strings.TrimOfTrimmed(s);
    if n < 0 {
      assert s[1..] == NatToString(-n);
    }
  }

  /** `String(n).padStart(2, "0")`. */
  function Pad2(n: int): (s: string)
    ensures |s| >= 2
    ensures 0 <= n < 10 ==> s == ['0', DigitChar(n)]
    ensures n >= 10 || n < 0 ==> s == IntToString(n)
  {
    var t := IntToString(n);
    if |t| < 2 then "0" + t else t
  }

  /** Below 100, the padded number has exactly two characters. */
  lemma Pad2Length(n: int)
    requires 0 <= n < 100
    ensures |Pad2(n)| == 2
  {
    if n >= 10 {
      assert NatToString(n) == NatToString(n / 10) + [DigitChar(n % 10)];
    }
  }

  /** A padded non-negative number still reads back as itself. */
  lemma {:induction false} NumberOfPad2(n: nat)
    ensures ToNumber(Pad2(n)) == Int(n)
  {
    if n < 10 {
      var s := Pad2(n);
      assert s[..1] == "0";
      assert DigitsValue(s) == n by {
        assert s[..|s| - 1] == "0";
      }
      Strings.TrimOfTrimmed(s);
    } else {
      NumberOfString(n);
    }
  }
}
