/** The loosely typed JSON scalars the PnL engine reads from the exchange's
    responses, with JavaScript's truthiness, `||` and `parseFloat`. */
module JsValues {

  datatype Option<+T> = None | Some(value: T)

  /** A scalar field as it arrives: absent, null, a boolean, a number
      (`None` stands for NaN) or a string. Infinities are not modelled. */
  datatype Value =
    | Undefined
    | Null
    | Bool(b: bool)
    | Number(n: Option<real>)
    | Text(s: string)

  /** JavaScript truthiness: undefined, null, false, 0, NaN and "" are falsy. */
  predicate Truthy(v: Value)
  {
    match v
    case Undefined => false
    case Null => false
    case Bool(b) => b
    case Number(n) => n.Some? && n.value != 0.0
    case Text(s) => s != ""
  }

  /** JavaScript's `a || b`: `a` when it is truthy, `b` otherwise. */
  function Or(a: Value, b: Value): Value
  {
    if Truthy(a) then a else b
  }

  /** The literal `0` that the engine writes as the last operand of `||`. */
  const Zero: Value := Number(Some(0.0))

  /** `parseFloat(v)`; `None` is NaN. A number parses to itself; undefined,
      null and booleans become the strings "undefined", "null", "true" or
      "false", none of which begins with a number. */
  function ParseFloat(v: Value): Option<real>
  {
    match v
    case Number(n) => n
    case Text(s) => ParseDecimal(s)
    case _ => None
  }

  /** The amount `parseFloat(v || 0)` contributes to a total: NaN adds nothing. */
  function Addend(v: Value): (r: real)
    ensures !Truthy(v) ==> r == 0.0
    ensures ParseFloat(v) == None ==> r == 0.0
    ensures Truthy(v) && ParseFloat(v).Some? ==> r == ParseFloat(v).value
  {
    match ParseFloat(Or(v, Zero))
    case Some(x) => x
    case None => 0.0
  }

  function Abs(x: real): (r: real)
    ensures r >= 0.0 && (r == x || r == -x)
  {
    if x < 0.0 then -x else x
  }

  // ---------------------------------------------------------------------
  // parseFloat on strings: skip leading white space, then read the longest
  // prefix of the form [+-] digits [. digits] [(e|E) [+-] digits].

  /** The white space and line terminators JavaScript trims before parsing. */
  predicate IsSpace(c: char)
  {
    c == ' ' || c == '\t' || c == '\n' || c == '\r' || c == '\U{B}' || c == '\U{C}' ||
    c == '\U{A0}' || c == '\U{1680}' || ('\U{2000}' <= c <= '\U{200A}') ||
    c == '\U{2028}' || c == '\U{2029}' || c == '\U{202F}' || c == '\U{205F}' ||
    c == '\U{3000}' || c == '\U{FEFF}'
  }

  predicate IsDigit(c: char)
  {
    '0' <= c <= '9'
  }

  /** The length of the run of decimal digits that starts `s`. */
  function DigitRun(s: string): (n: nat)
    ensures n <= |s|
    ensures forall k :: 0 <= k < n ==> IsDigit(s[k])
    ensures n < |s| ==> !IsDigit(s[n])
  {
    if |s| > 0 && IsDigit(s[0]) then 1 + DigitRun(s[1..]) else 0
  }

  /** The number a string of decimal digits denotes. */
  function DigitsValue(ds: string): nat
  {
    if |ds| == 0 then 0
    else
      var c := ds[|ds| - 1];
      DigitsValue(ds[..|ds| - 1]) * 10 + (if IsDigit(c) then (c - '0') as int else 0)
  }

  function Pow10(n: nat): (r: nat)
    ensures r >= 1
  {
    if n == 0 then 1 else 10 * Pow10(n - 1)
  }

  /** The exponent an exponent part such as "e-3" denotes; 0 when `s` does
      not start with a complete exponent part (then it is not consumed). */
  function ExponentOf(s: string): int
  {
    if |s| == 0 || (s[0] != 'e' && s[0] != 'E') then 0
    else
      var t := s[1..];
      var negative := |t| > 0 && t[0] == '-';
      var u := if |t| > 0 && (t[0] == '-' || t[0] == '+') then t[1..] else t;
      var n := DigitRun(u);
      if n == 0 then 0
      else if negative then -(DigitsValue(u[..n]) as int)
      else DigitsValue(u[..n])
  }

  /** `parseFloat` on a string; `None` when no digit starts the number. */
  function ParseDecimal(s: string): Option<real>
  {
    Scan(s, LeadingSpace)
  }

  /** Where the scan of `parseFloat` stands: still skipping leading white
      space, or at the number with its optional sign. */
  datatype ScanState = LeadingSpace | AtNumber

  /** The scan from `state` over `s`: white space is skipped one character
      at a time; at the number, a leading minus negates the unsigned part
      that follows the sign. */
  function Scan(s: string, state: ScanState): Option<real>
    decreases |s|, if state.LeadingSpace? then 1 else 0
  {
    match state
    case LeadingSpace =>
      if |s| > 0 && IsSpace(s[0]) then Scan(s[1..], LeadingSpace) else Scan(s, AtNumber)
    case AtNumber =>
      var r := ParseUnsigned(UnsignedPart(s));
      if |s| > 0 && s[0] == '-' then Negated(r) else r
  }

  /** The text after an optional leading sign. */
  function UnsignedPart(t: string): string
  {
    if |t| > 0 && (t[0] == '-' || t[0] == '+') then t[1..] else t
  }

  /** The negation of a parsed number; NaN stays NaN. */
  function Negated(r: Option<real>): Option<real>
  {
    match r
    case None => None
    case Some(m) => Some(-m)
  }

  /** The unsigned number at the start of `u`: integer digits, an optional
      fraction and an optional exponent; `None` when there is no digit on
      either side of the point. */
  function ParseUnsigned(u: string): Option<real>
  {
    var i := DigitRun(u);
    AfterInteger(u[..i], u[i..])
  }

  /** The number whose integer digits are `whole`, read on from `rest`: an
      optional point and fraction, then an optional exponent. */
  function AfterInteger(whole: string, rest: string): Option<real>
  {
    if |rest| > 0 && rest[0] == '.' then
      var j := DigitRun(rest[1..]);
      NumberOf(whole, rest[1..][..j], rest[1 + j..])
    else NumberOf(whole, "", rest)
  }

  /** The number with integer digits `whole`, fraction digits `fraction`
      and exponent part `after`; `None` when both digit runs are empty. */
  function NumberOf(whole: string, fraction: string, after: string): Option<real>
  {
    if |whole| == 0 && |fraction| == 0 then None
    else Some(Scaled(Mantissa(whole + fraction, |fraction|), ExponentOf(after)))
  }

  /** The value of the digits `digits` when the last `j` of them follow the
      point. */
  function Mantissa(digits: string, j: nat): real
  {
    Scaled(DigitsValue(digits) as real, -(j as int))
  }

  /** `m` times ten to the power `e`, one factor of ten at a time. */
  function Scaled(m: real, e: int): real
    decreases if e >= 0 then e else -e
  {
    if e == 0 then m
    else if e > 0 then Scaled(m, e - 1) * 10.0
    else Scaled(m, e + 1) / 10.0
  }

  /** Scaling down by `j` places divides by ten to the power `j`. */
  lemma {:induction false} ScaledDown(m: real, j: nat)
    ensures Scaled(m, -(j as int)) == m / Pow10(j) as real
  {
    if j > 0 {
      ScaledDown(m, j - 1);
      assert Scaled(m, -(j as int)) == (m / Pow10(j - 1) as real) / 10.0;
      assert Pow10(j) as real == Pow10(j - 1) as real * 10.0;
    }
  }

  lemma UnsignedDigits(ds: string)
    requires |ds| > 0 && forall k :: 0 <= k < |ds| ==> IsDigit(ds[k])
    ensures ParseUnsigned(ds) == Some(DigitsValue(ds) as real)
  {
    assert ParseUnsigned(ds) == AfterInteger(ds, "") by {
      assert DigitRun(ds) == |ds|;
      assert ds[..|ds|] == ds && ds[|ds|..] == "";
    }
    WholeNumber(ds);
  }

  /** Integer digits with nothing after them: the integer they spell. */
  lemma WholeNumber(ds: string)
    requires |ds| > 0
    ensures AfterInteger(ds, "") == Some(DigitsValue(ds) as real)
  {
    NumberWithoutExponent(ds, "");
    assert ds + "" == ds;
  }

  /** A plain run of decimal digits parses as the integer it spells. */
  lemma DigitsParse(ds: string)
    requires |ds| > 0 && forall k :: 0 <= k < |ds| ==> IsDigit(ds[k])
    ensures ParseFloat(Text(ds)) == Some(DigitsValue(ds) as real)
  {
    UnsignedStart(ds);
    UnsignedDigits(ds);
  }

  /** A string of decimal digits. */
  predicate AllDigits(s: string)
  {
    forall k :: 0 <= k < |s| ==> IsDigit(s[k])
  }

  /** The digit run of `ds + rest` is `ds` when `rest` does not start with a
      digit. */
  lemma DigitRunStops(ds: string, rest: string)
    requires AllDigits(ds)
    requires |rest| > 0 && !IsDigit(rest[0])
    ensures DigitRun(ds + rest) == |ds|
  {
    assert (ds + rest)[|ds|] == rest[0];
  }

  /** A point followed by digits up to the end: those digits are the
      fraction and no exponent part follows. */
  lemma PointThenDigits(whole: string, fs: string)
    requires AllDigits(fs)
    ensures AfterInteger(whole, "." + fs) == NumberOf(whole, fs, "")
  {
    var rest := "." + fs;
    assert rest[1..] == fs;
    assert DigitRun(fs) == |fs|;
    assert fs[..|fs|] == fs && fs[|fs|..] == "";
  }

  /** Without an exponent part, the number is its digits scaled down by the
      number of fraction digits. */
  lemma NumberWithoutExponent(whole: string, fraction: string)
    requires |whole| > 0 || |fraction| > 0
    ensures NumberOf(whole, fraction, "") == Some(Mantissa(whole + fraction, |fraction|))
  {
    assert ExponentOf("") == 0;
  }

  /** The unsigned part of a decimal string `ds.fs` (with at least one
      fraction digit): the digits of both parts, scaled down by the number
      of fraction digits. */
  lemma UnsignedDecimal(ds: string, fs: string)
    requires AllDigits(ds) && AllDigits(fs) && |fs| > 0
    ensures ParseUnsigned(ds + "." + fs) == Some(Mantissa(ds + fs, |fs|))
  {
    var u := ds + "." + fs;
    assert u == ds + ("." + fs);
    DigitRunStops(ds, "." + fs);
    assert u[..|ds|] == ds && u[|ds|..] == "." + fs;
    PointThenDigits(ds, fs);
    NumberWithoutExponent(ds, fs);
  }

  /** A string that starts with a digit or a point has no leading space
      and no sign: `parseFloat` reads it as its unsigned part. */
  lemma UnsignedStart(u: string)
    requires |u| > 0 && (IsDigit(u[0]) || u[0] == '.')
    ensures ParseFloat(Text(u)) == ParseUnsigned(u)
  {
    assert Scan(u, LeadingSpace) == Scan(u, AtNumber) by {
      assert !IsSpace(u[0]);
    }
    assert UnsignedPart(u) == u;
    assert Scan(u, AtNumber) == ParseUnsigned(u);
  }

  /** A leading minus sign negates the unsigned part. */
  lemma NegatedStart(u: string)
    ensures ParseFloat(Text("-" + u)) == Negated(ParseUnsigned(u))
  {
    var t := "-" + u;
    assert t[0] == '-' && t[1..] == u;
    assert Scan(t, LeadingSpace) == Scan(t, AtNumber) by {
      assert !IsSpace(t[0]);
    }
    assert UnsignedPart(t) == u;
    assert Scan(t, AtNumber) == Negated(ParseUnsigned(u));
  }

  /** A decimal string `ds.fs` parses as the digits of both parts scaled
      down by the number of fraction digits. */
  lemma DecimalMantissa(ds: string, fs: string)
    requires AllDigits(ds) && AllDigits(fs) && |fs| > 0
    ensures ParseFloat(Text(ds + "." + fs)) == Some(Mantissa(ds + fs, |fs|))
  {
    var u := ds + "." + fs;
    assert u[0] == (if |ds| > 0 then ds[0] else '.');
    UnsignedStart(u);
    UnsignedDecimal(ds, fs);
  }

  /** A decimal string `ds.fs` parses as the number it spells: the integer
      of its digits over ten to the number of fraction digits. */
  lemma DecimalParse(ds: string, fs: string)
    requires AllDigits(ds) && AllDigits(fs) && |fs| > 0
    ensures ParseFloat(Text(ds + "." + fs)) == Some(DigitsValue(ds + fs) as real / Pow10(|fs|) as real)
  {
    DecimalMantissa(ds, fs);
    ScaledDown(DigitsValue(ds + fs) as real, |fs|);
  }

  /** A leading minus sign before a number that starts with a digit or a
      point negates what `parseFloat` reads; NaN stays NaN. */
  lemma NegativeParse(u: string)
    requires |u| > 0 && (IsDigit(u[0]) || u[0] == '.')
    ensures ParseFloat(Text("-" + u)) == Negated(ParseFloat(Text(u)))
  {
    NegatedStart(u);
    UnsignedStart(u);
  }
}
