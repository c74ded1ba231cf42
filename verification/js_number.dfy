/** JavaScript numbers and the string-to-number conversion of ECMA-262 (section 7.1.4.1.1,
    StringToNumber), which `isNaN`, `Number(...)` and relational comparisons apply to strings.
    Finite values are exact reals: IEEE-754 rounding and overflow to Infinity are not modelled. */
module JsNumber {
  import opened Wrappers
  import opened JsText

  datatype Number = NaN | PosInf | NegInf | Finite(r: real)

  function Pow10(n: nat): (p: nat)
    ensures p >= 1
  {
    if n == 0 then 1 else 10 * Pow10(n - 1)
  }

  /** The exact value `m × 10^e`. */
  function Scale(m: nat, e: int): real {
    if e >= 0 then (m * Pow10(e)) as real else m as real / Pow10(-e) as real
  }

  // ---------------------------------------------------------------- 0x / 0o / 0b literals

  /** Radix named by the letter after a leading `0`, or 0 when it names none. */
  function RadixOf(c: char): nat {
    if c == 'x' || c == 'X' then 16
    else if c == 'o' || c == 'O' then 8
    else if c == 'b' || c == 'B' then 2
    else 0
  }

  function RadixDigit(c: char, radix: nat): Option<nat> {
    var d :=
      if '0' <= c <= '9' then c as int - '0' as int
      else if 'a' <= c <= 'f' then c as int - 'a' as int + 10
      else if 'A' <= c <= 'F' then c as int - 'A' as int + 10
      else 16;
    if d < radix then Some(d) else None
  }

  /** Value of a digit string in the given radix; `None` when some character is not a digit. */
  function RadixValue(s: string, radix: nat): Option<nat>
    decreases |s|
  {
    if |s| == 0 then Some(0)
    else
      match (RadixValue(s[..|s| - 1], radix), RadixDigit(s[|s| - 1], radix))
      case (Some(v), Some(d)) => Some(v * radix + d)
      case _ => None
  }

  // ---------------------------------------------------------------- decimal literals

  predicate HasDigit(s: string) {
    exists i :: 0 <= i < |s| && IsDigit(s[i])
  }

  /** `digits`, `digits.`, `digits.digits` or `.digits`: the digits with the point removed, and
      the number of digits after the point. */
  function ParseMantissa(m: string): (r: Option<(nat, nat)>)
    ensures r.Some? ==> HasDigit(m)
  {
    var dot := match IndexOfChar(m, '.') case Some(k) => k case None => |m|;
    var whole := m[..dot];
    var frac := if dot < |m| then m[dot + 1..] else "";
    if |whole| + |frac| > 0 && AllDigits(whole) && AllDigits(frac) then
      assert AllDigits(whole + frac);
      assert |whole| > 0 ==> m[0] == whole[0];
      assert |whole| == 0 ==> m[dot + 1] == frac[0];
      Some((DigitsValue(whole + frac), |frac|))
    else
      None
  }

  /** Optionally signed, non-empty decimal digits after the exponent letter. */
  function ParseExponent(x: string): Option<int> {
    if |x| > 0 && (x[0] == '+' || x[0] == '-') then
      var d := x[1..];
      if |d| > 0 && AllDigits(d) then
        Some(if x[0] == '-' then -(DigitsValue(d) as int) else DigitsValue(d) as int)
      else
        None
    else if |x| > 0 && AllDigits(x) then
      Some(DigitsValue(x) as int)
    else
      None
  }

  /** Index of the first `e` or `E`, or `|s|` when there is none. */
  function ExponentMark(s: string): (k: nat)
    ensures k <= |s|
    ensures forall j :: 0 <= j < k ==> s[j] != 'e' && s[j] != 'E'
    ensures k < |s| ==> s[k] == 'e' || s[k] == 'E'
    decreases |s|
  {
    if |s| == 0 || s[0] == 'e' || s[0] == 'E' then 0 else 1 + ExponentMark(s[1..])
  }

  /** StrUnsignedDecimalLiteral without `Infinity`: a mantissa and an optional exponent. */
  function ParseUnsignedDecimal(u: string): (r: Option<real>)
    ensures r.Some? ==> HasDigit(u)
  {
    var k := ExponentMark(u);
    var mantissa := ParseMantissa(u[..k]);
    var exponent := if k < |u| then ParseExponent(u[k + 1..]) else Some(0);
    match (mantissa, exponent)
    case (Some((digits, fracLen)), Some(e)) =>
      var i :| 0 <= i < |u[..k]| && IsDigit(u[..k][i]);
      assert IsDigit(u[i]);
      Some(Scale(digits, e - fracLen))
    case _ => None
  }

  /** `Number(s)` for a string `s`. */
  function StringToNumber(s: string): Number {
    var t := Trim(s);
    if t == "" then
      Finite(0.0)
    else if |t| > 2 && t[0] == '0' && RadixOf(t[1]) != 0 then
      match RadixValue(t[2..], RadixOf(t[1]))
      case Some(v) => Finite(v as real)
      case None => NaN
    else
      var negative := t[0] == '-';
      var u := if t[0] == '-' || t[0] == '+' then t[1..] else t;
      if u == "Infinity" then
        (if negative then NegInf else PosInf)
      else
        match ParseUnsignedDecimal(u)
        case Some(r) => Finite(if negative then -r else r)
        case None => NaN
  }

  // ---------------------------------------------------------------- properties

  /** A digit string parses as a plain decimal: no point, no exponent. */
  lemma DigitStringDecimal(s: string)
    requires |s| > 0 && AllDigits(s)
    ensures ParseUnsignedDecimal(s) == Some(DigitsValue(s) as real)
  {
    var k := ExponentMark(s);
    assert k == |s|;
    assert s[..k] == s;
    var dot := IndexOfChar(s, '.');
    assert dot.None?;
    assert s[..|s|] + "" == s;
    assert ParseMantissa(s) == Some((DigitsValue(s), 0));
  }

  /** A trimmed string that starts with a digit and is no `0x`/`0o`/`0b` literal is read as an
      unsigned decimal. */
  lemma UnsignedDecimalBranch(t: string)
    requires |t| > 0 && Trim(t) == t && IsDigit(t[0])
    requires |t| > 2 && t[0] == '0' ==> RadixOf(t[1]) == 0
    ensures StringToNumber(t)
         == match ParseUnsignedDecimal(t) case Some(r) => Finite(r) case None => NaN
  {
    assert t != "Infinity" by {
      assert IsDigit(t[0]);
    }
  }

  /** A non-empty string of decimal digits denotes its decimal value. */
  lemma DigitStringValue(s: string)
    requires |s| > 0 && AllDigits(s)
    ensures StringToNumber(s) == Finite(DigitsValue(s) as real)
  {
    DigitStringShape(s);
    UnsignedDecimalBranch(s);
    DigitStringDecimal(s);
  }

  /** A digit string has no surrounding space and no radix prefix. */
  lemma DigitStringShape(s: string)
    requires |s| > 0 && AllDigits(s)
    ensures Trim(s) == s && IsDigit(s[0]) && (|s| > 1 ==> RadixOf(s[1]) == 0)
  {
    assert !IsSpace(s[0]) && !IsSpace(s[|s| - 1]);
    TrimOfTrimmed(s);
    assert |s| > 1 ==> IsDigit(s[1]);
  }

  /** `String(n)` read back by `Number(...)` gives `n`. */
  lemma NatToStringRoundTrip(n: nat)
    ensures StringToNumber(NatToString(n)) == Finite(n as real)
  {
    DigitStringValue(NatToString(n));
  }

  /** Trimming keeps the absence of digits. */
  lemma TrimKeepsNoDigit(s: string)
    requires !HasDigit(s)
    ensures !HasDigit(Trim(s))
  {
    var t := Trim(s);
    var lo := LeadingSpace(s);
    forall i | 0 <= i < |t|
      ensures !IsDigit(t[i])
    {
      assert t[i] == s[lo + i];
    }
  }

  /** Dropping a leading character keeps the absence of digits. */
  lemma TailKeepsNoDigit(t: string)
    requires |t| > 0 && !HasDigit(t)
    ensures !HasDigit(t[1..])
  {
    forall i | 0 <= i < |t[1..]|
      ensures !IsDigit(t[1..][i])
    {
      assert t[1..][i] == t[i + 1];
    }
  }

  /** Text with no decimal digit that is neither blank nor a (signed) `Infinity`. */
  predicate NoNumeral(s: string) {
    && !HasDigit(s)
    && var t := Trim(s);
       t != "" && t != "Infinity" && t != "+Infinity" && t != "-Infinity"
  }

  /** A string without any decimal digit is NaN unless it is blank or (signed) `Infinity`. */
  lemma NoDigitIsNaN(s: string)
    requires NoNumeral(s)
    ensures StringToNumber(s) == NaN
  {
    var t := Trim(s);
    TrimKeepsNoDigit(s);
    assert !IsDigit(t[0]);
    TailKeepsNoDigit(t);
    var u := if t[0] == '-' || t[0] == '+' then t[1..] else t;
    assert !HasDigit(u);
    assert u != "Infinity" by {
      if t[0] == '-' || t[0] == '+' {
        assert t == [t[0]] + u;
      }
    }
    assert ParseUnsignedDecimal(u).None?;
  }

}
