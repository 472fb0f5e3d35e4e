/**
 * Decimal text of 32-bit integers: `UInt32.TryParse` and `Int32.TryParse` with their default
 * number style, and `ToString()` of integers.
 */
module Decimal {
  import opened Wrappers

  /** `uint.MaxValue`. */
  const UInt32Max: nat := 4294967295

  /** `int.MinValue` and `int.MaxValue`. */
  const Int32Min: int := -2147483648
  const Int32Max: int := 2147483647

  /** `int`. */
  type Int32 = n: int | Int32Min <= n <= Int32Max

  /** `uint`. */
  type UInt32 = n: nat | n <= UInt32Max

  predicate IsDigit(c: char) {
    '0' <= c <= '9'
  }

  predicate AllDigits(s: string) {
    forall i :: 0 <= i < |s| ==> IsDigit(s[i])
  }

  function DigitValue(c: char): (d: nat)
    requires IsDigit(c)
    ensures d < 10
  {
    (c as int) - ('0' as int)
  }

  function DigitChar(d: nat): (c: char)
    requires d < 10
    ensures IsDigit(c) && DigitValue(c) == d
  {
    (('0' as int) + d) as char
  }

  /** The number a digit string denotes, most significant digit first. */
  function DigitsValue(s: string): nat
    requires AllDigits(s)
    decreases |s|
  {
    if s == [] then 0 else 10 * DigitsValue(s[..|s| - 1]) + DigitValue(s[|s| - 1])
  }

  // ---------------------------------------------------------------------------------------------
  // The default `NumberStyles.Integer` of `TryParse`: white space around an optional sign and the
  // digits, and trailing NUL characters, which the .NET number parser also ignores.

  /** The white space the number parser skips: U+0009 to U+000D and the space. */
  predicate IsNumberWhite(c: char) {
    c == ' ' || '\t' <= c <= '\r'
  }

  predicate AllNumberWhite(s: string) {
    forall i :: 0 <= i < |s| ==> IsNumberWhite(s[i])
  }

  predicate AllNul(s: string) {
    forall i :: 0 <= i < |s| ==> s[i] == '\0'
  }

  /**
   * The parser's passes over the text, in order: trailing NULs, then trailing white space, then
   * leading white space.
   */
  datatype TrimPhase = TrailingNuls | TrailingWhite | LeadingWhite

  function PhaseRank(phase: TrimPhase): nat {
    match phase
    case TrailingNuls => 2
    case TrailingWhite => 1
    case LeadingWhite => 0
  }

  /** What is left of `s` once `phase` and the passes after it have removed their characters. */
  function Trim(s: string, phase: TrimPhase): string
    decreases |s|, PhaseRank(phase)
  {
    match phase
    case TrailingNuls =>
      if s != [] && s[|s| - 1] == '\0' then Trim(s[..|s| - 1], TrailingNuls) else Trim(s, TrailingWhite)
    case TrailingWhite =>
      if s != [] && IsNumberWhite(s[|s| - 1]) then Trim(s[..|s| - 1], TrailingWhite) else Trim(s, LeadingWhite)
    case LeadingWhite =>
      if s != [] && IsNumberWhite(s[0]) then Trim(s[1..], LeadingWhite) else s
  }

  /** The last pass removes white space `w1` at the front. */
  lemma {:induction false} LeadingWhiteSplits(s: string) returns (w1: string)
    ensures s == w1 + Trim(s, LeadingWhite) && AllNumberWhite(w1)
    decreases |s|
  {
    if s != [] && IsNumberWhite(s[0]) {
      var w1' := LeadingWhiteSplits(s[1..]);
      w1 := [s[0]] + w1';
      assert s == [s[0]] + s[1..];
    } else {
      w1 := [];
    }
  }

  /** The trailing white space pass and the one after it remove white space `w1` and `w2`. */
  lemma {:induction false} TrailingWhiteSplits(s: string) returns (w1: string, w2: string)
    ensures s == w1 + Trim(s, TrailingWhite) + w2 && AllNumberWhite(w1) && AllNumberWhite(w2)
    decreases |s|
  {
    if s != [] && IsNumberWhite(s[|s| - 1]) {
      var u := s[..|s| - 1];
      var w2';
      w1, w2' := TrailingWhiteSplits(u);
      w2 := w2' + [s[|s| - 1]];
      assert s == u + [s[|s| - 1]];
    } else {
      w1 := LeadingWhiteSplits(s);
      w2 := [];
    }
  }

  /**
   * What the passes remove is white space `w1` at the front, and white space `w2` and NULs `z` at
   * the end.
   */
  lemma {:induction false} TrailingNulsSplits(s: string) returns (w1: string, w2: string, z: string)
    ensures s == w1 + Trim(s, TrailingNuls) + w2 + z
    ensures AllNumberWhite(w1) && AllNumberWhite(w2) && AllNul(z)
    decreases |s|
  {
    if s != [] && s[|s| - 1] == '\0' {
      var u := s[..|s| - 1];
      var z';
      w1, w2, z' := TrailingNulsSplits(u);
      z := z' + [s[|s| - 1]];
      assert s == u + [s[|s| - 1]];
    } else {
      w1, w2 := TrailingWhiteSplits(s);
      z := [];
    }
  }

  /** What the parser reads between the white space: whether a minus sign came first, and the rest. */
  function SignAndDigits(s: string): (bool, string) {
    var t := Trim(s, TrailingNuls);
    if |t| > 0 && (t[0] == '+' || t[0] == '-') then (t[0] == '-', t[1..]) else (false, t)
  }

  /**
   * `s` is white space `w1`, an optional sign, the digits `d`, white space `w2` and NULs `z`: the
   * shape `NumberStyles.Integer` accepts.
   */
  ghost predicate IntegerStyle(s: string, w1: string, sign: string, d: string, w2: string, z: string) {
    && s == w1 + sign + d + w2 + z
    && AllNumberWhite(w1) && (sign == "" || sign == "+" || sign == "-")
    && |d| > 0 && AllDigits(d) && AllNumberWhite(w2) && AllNul(z)
  }

  /** A trailing run is dropped exactly when what precedes it does not end in that run's kind. */
  lemma {:induction false} TrailingNulsOf(p: string, z: string)
    requires AllNul(z) && (p == [] || p[|p| - 1] != '\0')
    ensures Trim(p + z, TrailingNuls) == Trim(p, TrailingWhite)
    decreases |z|
  {
    if z == [] {
      assert p + z == p;
    } else {
      var s := p + z;
      assert s[|s| - 1] == z[|z| - 1];
      assert s[..|s| - 1] == p + z[..|z| - 1];
      TrailingNulsOf(p, z[..|z| - 1]);
    }
  }

  lemma {:induction false} TrailingWhiteOf(p: string, w: string)
    requires AllNumberWhite(w) && (p == [] || !IsNumberWhite(p[|p| - 1]))
    ensures Trim(p + w, TrailingWhite) == Trim(p, LeadingWhite)
    decreases |w|
  {
    if w == [] {
      assert p + w == p;
    } else {
      var s := p + w;
      assert s[|s| - 1] == w[|w| - 1];
      assert s[..|s| - 1] == p + w[..|w| - 1];
      TrailingWhiteOf(p, w[..|w| - 1]);
    }
  }

  lemma {:induction false} LeadingWhiteOf(w: string, p: string)
    requires AllNumberWhite(w) && (p == [] || !IsNumberWhite(p[0]))
    ensures Trim(w + p, LeadingWhite) == p
    decreases |w|
  {
    if w == [] {
      assert w + p == p;
    } else {
      var s := w + p;
      assert s[0] == w[0];
      assert s[1..] == w[1..] + p;
      LeadingWhiteOf(w[1..], p);
    }
  }

  lemma LastOfAppend(a: string, b: string)
    requires b != []
    ensures (a + b)[|a + b| - 1] == b[|b| - 1]
  {
  }

  /** The digits end the text before the trailing white space, so the NULs are exactly `z`. */
  lemma CleanEnd(p: string, w: string)
    requires p != [] && !IsNumberWhite(p[|p| - 1]) && p[|p| - 1] != '\0' && AllNumberWhite(w)
    ensures p + w != [] && (p + w)[|p + w| - 1] != '\0'
  {
    if w == [] {
      assert p + w == p;
    } else {
      LastOfAppend(p, w);
    }
  }

  /** An optional sign in front of the digits is read off as the sign. */
  lemma SplitSign(sign: string, d: string)
    requires (sign == "" || sign == "+" || sign == "-") && |d| > 0 && AllDigits(d)
    ensures var t := sign + d;
      && t != [] && !IsNumberWhite(t[0])
      && (if |t| > 0 && (t[0] == '+' || t[0] == '-') then (t[0] == '-', t[1..]) else (false, t)) == (sign == "-", d)
  {
    var t := sign + d;
    if sign == "" {
      assert t == d;
      assert IsDigit(d[0]);
    } else {
      assert t[0] == sign[0];
      assert t[1..] == d;
    }
  }

  /** Every string of the accepted shape reads as its sign and digits. */
  lemma SignAndDigitsOf(s: string, w1: string, sign: string, d: string, w2: string, z: string)
    requires IntegerStyle(s, w1, sign, d, w2, z)
    ensures SignAndDigits(s) == (sign == "-", d)
  {
    var body := sign + d;
    var p2 := w1 + sign + d;
    var p1 := p2 + w2;
    assert p2 == w1 + body;
    LastOfAppend(w1 + sign, d);
    assert IsDigit(d[|d| - 1]);
    CleanEnd(p2, w2);
    TrailingNulsOf(p1, z);
    TrailingWhiteOf(p2, w2);
    SplitSign(sign, d);
    LeadingWhiteOf(w1, body);
  }

  /** The sign the parser reads at the front of `t`, as text. */
  function SignText(t: string): string {
    if |t| > 0 && t[0] == '-' then "-" else if |t| > 0 && t[0] == '+' then "+" else ""
  }

  /** The text between the white space has the optional sign in front of what follows it. */
  lemma SignOf(t: string)
    ensures var sign := SignText(t);
      && (sign == "" || sign == "+" || sign == "-")
      && t == sign + (if |t| > 0 && (t[0] == '+' || t[0] == '-') then t[1..] else t)
  {
    if |t| > 0 && (t[0] == '+' || t[0] == '-') {
      assert t == [t[0]] + t[1..];
    }
  }

  /** Whatever the parser reads has the accepted shape around it: the pieces are returned. */
  lemma SignAndDigitsShape(s: string) returns (w1: string, sign: string, w2: string, z: string)
    requires var (_, d) := SignAndDigits(s); |d| > 0 && AllDigits(d)
    ensures IntegerStyle(s, w1, sign, SignAndDigits(s).1, w2, z) && (sign == "-") == SignAndDigits(s).0
  {
    var t := Trim(s, TrailingNuls);
    w1, w2, z := TrailingNulsSplits(s);
    SignOf(t);
    sign := SignText(t);
    var d := SignAndDigits(s).1;
    assert t == sign + d;
    assert w1 + t == w1 + sign + d;
  }

  /** A plain digit string is read as it stands. */
  lemma PlainDigitsRead(s: string)
    ensures |s| > 0 && AllDigits(s) ==> SignAndDigits(s) == (false, s)
  {
    if |s| > 0 && AllDigits(s) {
      assert s == "" + "" + s + "" + "";
      SignAndDigitsOf(s, "", "", s, "", "");
    }
  }

  /**
   * `UInt32.TryParse(s, out v)` with the default style: white space and trailing NULs around an
   * optional sign and decimal digits whose value fits in 32 bits; a minus sign only before zero.
   */
  function ParseUInt32(s: Option<string>): (r: Option<UInt32>)
    ensures s.None? ==> r.None?
    ensures s.Some? && |s.value| > 0 && AllDigits(s.value) ==>
      r == (if DigitsValue(s.value) <= UInt32Max then Some(DigitsValue(s.value)) else None)
  {
    if s.None? then None
    else
      var (neg, d) := SignAndDigits(s.value);
      PlainDigitsRead(s.value);
      if |d| > 0 && AllDigits(d) && DigitsValue(d) <= UInt32Max && (!neg || DigitsValue(d) == 0)
      then Some(DigitsValue(d))
      else None
  }

  /** A string of the accepted shape reads as its digits, as far as they fit and the sign allows. */
  lemma ParseUInt32Of(s: string, w1: string, sign: string, d: string, w2: string, z: string)
    requires IntegerStyle(s, w1, sign, d, w2, z)
    ensures ParseUInt32(Some(s)) ==
      if DigitsValue(d) <= UInt32Max && (sign != "-" || DigitsValue(d) == 0) then Some(DigitsValue(d)) else None
  {
    SignAndDigitsOf(s, w1, sign, d, w2, z);
  }

  /** And nothing else is accepted: a string that reads has the accepted shape around its digits. */
  lemma ParseUInt32Shape(s: string)
    requires ParseUInt32(Some(s)).Some?
    ensures exists w1, sign, d, w2, z :: IntegerStyle(s, w1, sign, d, w2, z) && DigitsValue(d) == ParseUInt32(Some(s)).value
  {
    var w1, sign, w2, z := SignAndDigitsShape(s);
    var d := SignAndDigits(s).1;
    assert DigitsValue(d) == ParseUInt32(Some(s)).value;
  }

  /** `ToString()` of a non-negative integer: its shortest decimal text. */
  function NatToString(n: nat): (s: string)
    ensures |s| > 0 && AllDigits(s)
    decreases n
  {
    if n < 10 then [DigitChar(n)] else NatToString(n / 10) + [DigitChar(n % 10)]
  }

  /** `ToString()` of a signed integer. */
  function IntToString(n: int): (s: string)
    ensures n >= 0 ==> s == NatToString(n)
    ensures n < 0 ==> s == "-" + NatToString(-n)
  {
    if n < 0 then "-" + NatToString(-n) else NatToString(n)
  }

  /** Printing and then reading a number back gives the number. */
  lemma {:induction false} DigitsValueOfNatToString(n: nat)
    ensures DigitsValue(NatToString(n)) == n
    decreases n
  {
    var s := NatToString(n);
    if n >= 10 {
      DigitsValueOfNatToString(n / 10);
      assert s[..|s| - 1] == NatToString(n / 10);
    }
  }

  /** Different numbers print differently. */
  lemma NatToStringInjective(a: nat, b: nat)
    requires a != b
    ensures NatToString(a) != NatToString(b)
  {
    DigitsValueOfNatToString(a);
    DigitsValueOfNatToString(b);
  }

  /** `UInt32.Parse(v.ToString()) == v` for every 32-bit value. */
  lemma ParseUInt32OfNatToString(n: nat)
    requires n <= UInt32Max
    ensures ParseUInt32(Some(NatToString(n))) == Some(n)
  {
    DigitsValueOfNatToString(n);
  }

  /**
   * `Int32.TryParse(s, out v)` with the default style: white space and trailing NULs around an
   * optional sign and decimal digits whose signed value fits in 32 bits.
   */
  function ParseInt32(s: Option<string>): (r: Option<Int32>)
    ensures s.None? ==> r.None?
    ensures s.Some? && |s.value| > 0 && AllDigits(s.value) ==>
      r == (if DigitsValue(s.value) <= Int32Max then Some(DigitsValue(s.value)) else None)
  {
    if s.None? then None
    else
      var (neg, d) := SignAndDigits(s.value);
      PlainDigitsRead(s.value);
      if |d| > 0 && AllDigits(d) then
        var v: int := if neg then -(DigitsValue(d) as int) else DigitsValue(d);
        if Int32Min <= v <= Int32Max then Some(v) else None
      else None
  }

  /** A string of the accepted shape reads as its signed digits, as far as they fit. */
  lemma ParseInt32Of(s: string, w1: string, sign: string, d: string, w2: string, z: string)
    requires IntegerStyle(s, w1, sign, d, w2, z)
    ensures var v := if sign == "-" then -(DigitsValue(d) as int) else DigitsValue(d);
      ParseInt32(Some(s)) == if Int32Min <= v <= Int32Max then Some(v) else None
  {
    SignAndDigitsOf(s, w1, sign, d, w2, z);
  }

  /** And nothing else is accepted. */
  lemma ParseInt32Shape(s: string)
    requires ParseInt32(Some(s)).Some?
    ensures exists w1, sign, d, w2, z ::
      IntegerStyle(s, w1, sign, d, w2, z) && ParseInt32(Some(s)).value == (if sign == "-" then -(DigitsValue(d) as int) else DigitsValue(d))
  {
    var w1, sign, w2, z := SignAndDigitsShape(s);
    var d := SignAndDigits(s).1;
    assert ParseInt32(Some(s)).value == (if sign == "-" then -(DigitsValue(d) as int) else DigitsValue(d));
  }

  /** `Int32.Parse(v.ToString()) == v` for every 32-bit value. */
  lemma ParseInt32OfIntToString(n: int)
    requires Int32Min <= n <= Int32Max
    ensures ParseInt32(Some(IntToString(n))) == Some(n)
  {
    if n < 0 {
      DigitsValueOfNatToString(-n);
      ParseInt32OfNegative(NatToString(-n));
    } else {
      DigitsValueOfNatToString(n);
    }
  }

  /** A minus sign and digits read as the negated digits, as far as they fit. */
  lemma ParseInt32OfNegative(d: string)
    requires |d| > 0 && AllDigits(d)
    ensures ParseInt32(Some("-" + d)) == if DigitsValue(d) <= -Int32Min then Some(-(DigitsValue(d) as int)) else None
  {
    assert "-" + d == "" + "-" + d + "" + "";
    ParseInt32Of("-" + d, "", "-", d, "", "");
  }
}
