/** Decimal amounts: strings at the boundary, integer units of 1/10,000 inside. */
module Money {
  import opened Prelude
  import opened Rounding

  const SCALE_FACTOR: int := 10000
  /** NUMERIC(19,4): fifteen integer digits. */
  const MAX_UNITS: int := 9999999999999999999

  // ----- digit strings -----

  predicate IsDigit(c: char) { '0' <= c <= '9' }

  predicate AllDigits(s: string) { forall i :: 0 <= i < |s| ==> IsDigit(s[i]) }

  function DigitChar(d: nat): (c: char)
    requires d < 10
    ensures IsDigit(c)
  {
    (d + 48) as char
  }

  function Digits(n: nat): string {
    if n < 10 then [DigitChar(n)] else Digits(n / 10) + [DigitChar(n % 10)]
  }

  function Value(s: string): nat
    requires AllDigits(s)
  {
    if s == [] then 0 else 10 * Value(s[..|s| - 1]) + (s[|s| - 1] as int - 48)
  }

  function Zeros(k: nat): (z: string)
    ensures |z| == k && forall i :: 0 <= i < k ==> z[i] == '0'
  {
    seq(k, i => '0')
  }

  function PadStart(s: string, k: nat): string {
    if |s| >= k then s else Zeros(k - |s|) + s
  }

  function PadEnd(s: string, k: nat): string {
    if |s| >= k then s else s + Zeros(k - |s|)
  }

  lemma {:induction false} DigitsValue(n: nat)
    ensures AllDigits(Digits(n)) && |Digits(n)| >= 1 && Value(Digits(n)) == n
    ensures n > 0 ==> Digits(n)[0] != '0'
  {
    if n >= 10 {
      DigitsValue(n / 10);
      assert Digits(n)[..|Digits(n)| - 1] == Digits(n / 10);
    } else {
      assert Digits(n)[..0] == [];
    }
  }

  lemma {:induction false} ValueConcat(a: string, b: string)
    requires AllDigits(a) && AllDigits(b)
    ensures AllDigits(a + b) && Value(a + b) == Value(a) * Pow10(|b|) + Value(b)
  {
    if b == [] {
      assert a + b == a;
    } else {
      var front := b[..|b| - 1];
      assert (a + b)[..|a + b| - 1] == a + front;
      assert (a + b)[|a + b| - 1] == b[|b| - 1];
      ValueConcat(a, front);
      ShiftDigit(Value(a), Pow10(|front|), Value(front), b[|b| - 1] as int - 48);
    }
  }

  lemma {:induction false} ShiftDigit(x: int, p: int, y: int, d: int)
    ensures 10 * (x * p + y) + d == x * (10 * p) + (10 * y + d)
  {
  }

  lemma {:induction false} ZerosValue(k: nat)
    ensures AllDigits(Zeros(k)) && Value(Zeros(k)) == 0
  {
    if k > 0 {
      ZerosValue(k - 1);
      assert Zeros(k)[..k - 1] == Zeros(k - 1);
    }
  }

  lemma {:induction false} ValueBound(s: string)
    requires AllDigits(s)
    ensures Value(s) < Pow10(|s|)
  {
    if s != [] {
      ValueBound(s[..|s| - 1]);
    }
  }

  /** A digit string without a leading zero is the printed form of its value. */
  lemma {:induction false} DigitsOfValue(s: string)
    requires AllDigits(s) && |s| >= 1 && (|s| == 1 || s[0] != '0')
    ensures Digits(Value(s)) == s
    ensures |s| > 1 ==> Value(s) >= 10
  {
    var front := s[..|s| - 1];
    assert s == front + [s[|s| - 1]];
    if |s| > 1 {
      DigitsOfValue(front);
      if |front| == 1 {
        assert front[..0] == [];
        assert Value(front) >= 1;
      }
    } else {
      assert Value(front) == 0;
    }
  }

  lemma {:induction false} PaddedFraction(f: nat)
    requires f < 10000
    ensures |PadStart(Digits(f), 4)| == 4 && AllDigits(PadStart(Digits(f), 4))
    ensures Value(PadStart(Digits(f), 4)) == f
  {
    DigitsValue(f);
    DigitsShort(f);
    var z := Zeros(4 - |Digits(f)|);
    ZerosValue(4 - |Digits(f)|);
    ValueConcat(z, Digits(f));
    if |Digits(f)| == 4 { assert z + Digits(f) == Digits(f); }
  }

  lemma {:induction false} DigitsShort(f: nat)
    requires f < 10000
    ensures |Digits(f)| <= 4
  {
    if f >= 10 {
      assert |Digits(f)| == |Digits(f / 10)| + 1;
      if f / 10 >= 10 {
        assert |Digits(f / 10)| == |Digits(f / 100)| + 1;
      }
    }
  }

  /** Equal-length digit strings with the same value are the same string. */
  lemma {:induction false} ValueInjective(s: string, t: string)
    requires AllDigits(s) && AllDigits(t) && |s| == |t| && Value(s) == Value(t)
    ensures s == t
  {
    if s != [] {
      ValueInjective(s[..|s| - 1], t[..|t| - 1]);
      assert s == s[..|s| - 1] + [s[|s| - 1]];
      assert t == t[..|t| - 1] + [t[|t| - 1]];
    }
  }

  // ----- the two patterns -----

  /** White space and line terminators that String.prototype.trim removes. */
  predicate IsSpace(c: char) {
    || '\t' <= c <= '\r'
    || c == ' '
    || c == '\U{00A0}'
    || c == '\U{1680}'
    || '\U{2000}' <= c <= '\U{200A}'
    || c == '\U{2028}'
    || c == '\U{2029}'
    || c == '\U{202F}'
    || c == '\U{205F}'
    || c == '\U{3000}'
    || c == '\U{FEFF}'
  }

  function TrimStart(s: string): string {
    if s != [] && IsSpace(s[0]) then TrimStart(s[1..]) else s
  }

  function TrimEnd(s: string): string {
    if s != [] && IsSpace(s[|s| - 1]) then TrimEnd(s[..|s| - 1]) else s
  }

  function Trim(s: string): string { TrimEnd(TrimStart(s)) }

  function Find(s: string, c: char): (i: nat)
    ensures i <= |s|
    ensures i < |s| ==> s[i] == c
    ensures forall j :: 0 <= j < i ==> s[j] != c
  {
    if s == [] || s[0] == c then 0 else 1 + Find(s[1..], c)
  }

  /** The fractional part as written after the integer part. */
  function Tail(frac: string): string { if frac == "" then "" else "." + frac }

  /** body is the digit string `whole`, followed by "." and `frac` unless frac is empty. */
  predicate DecimalShape(body: string, places: nat, whole: string, frac: string) {
    && |whole| >= 1 && AllDigits(whole)
    && |frac| <= places && AllDigits(frac)
    && body == whole + Tail(frac)
  }

  /** digits, then optionally a point and one to `places` digits. */
  function SplitDecimal(body: string, places: nat): (r: Option<(string, string)>)
    ensures r.Some? ==> DecimalShape(body, places, r.value.0, r.value.1)
  {
    var i := Find(body, '.');
    var whole, frac := body[..i], if i < |body| then body[i + 1..] else "";
    if |whole| < 1 || !AllDigits(whole) || !AllDigits(frac) || |frac| > places then None
    else if i < |body| && frac == "" then None
    else
      assert i < |body| ==> body == body[..i] + ("." + body[i + 1..]);
      Some((whole, frac))
  }

  lemma {:induction false} ShapeSplits(body: string, places: nat, whole: string, frac: string)
    requires DecimalShape(body, places, whole, frac)
    ensures SplitDecimal(body, places) == Some((whole, frac))
  {
    var i := Find(body, '.');
    assert forall j :: 0 <= j < |whole| ==> body[j] == whole[j] && IsDigit(whole[j]);
    if frac != "" {
      assert body[|whole|] == '.';
      assert body[|whole| + 1..] == frac;
    }
    assert i == |whole|;
    assert body[..i] == whole;
  }

  // ----- Money.fromDecimalString / toDecimalString -----

  function FromUnits(units: int): Result<int> {
    if units > MAX_UNITS || units < -MAX_UNITS then Err(InvalidAmount) else Ok(units)
  }

  function SignOf(t: string): (bool, string) {
    if t != "" && t[0] == '-' then (true, t[1..])
    else if t != "" && t[0] == '+' then (false, t[1..])
    else (false, t)
  }

  function Units(whole: string, frac: string): nat
    requires AllDigits(whole) && AllDigits(frac)
  {
    assert AllDigits(PadEnd(frac, 4));
    Value(whole) * SCALE_FACTOR + Value(PadEnd(frac, 4))
  }

  function Signed(negative: bool, n: int): int { if negative then -n else n }

  function FromDecimalString(value: string): Result<int> {
    var (negative, body) := SignOf(Trim(value));
    match SplitDecimal(body, 4)
    case None => Err(InvalidAmount)
    case Some(parts) =>
      var units := Units(parts.0, parts.1);
      FromUnits(Signed(negative, units))
  }

  function ToDecimalString(units: int): string {
    var abs := Abs(units);
    (if units < 0 then "-" else "") + Digits(abs / SCALE_FACTOR) + "." + PadStart(Digits(abs % SCALE_FACTOR), 4)
  }

  /** A string that starts with a digit or sign and ends in a digit has nothing to trim. */
  lemma {:induction false} TrimNumber(s: string)
    requires s != "" && IsDigit(s[|s| - 1]) && (IsDigit(s[0]) || s[0] == '-' || s[0] == '+')
    ensures Trim(s) == s
  {
    assert !IsSpace(s[0]) && !IsSpace(s[|s| - 1]);
  }

  /** A digit string, a point and a digit string read back as those two parts. */
  lemma {:induction false} PointedShape(whole: string, frac: string, places: nat)
    requires |whole| >= 1 && AllDigits(whole)
    requires 1 <= |frac| <= places && AllDigits(frac)
    ensures SplitDecimal(whole + "." + frac, places) == Some((whole, frac))
  {
    assert whole + "." + frac == whole + ("." + frac);
    ShapeSplits(whole + "." + frac, places, whole, frac);
  }

  lemma {:induction false} PointedEnds(whole: string, frac: string)
    requires |whole| >= 1 && AllDigits(whole) && |frac| >= 1 && AllDigits(frac)
    ensures var body := whole + "." + frac;
            body != "" && IsDigit(body[0]) && IsDigit(body[|body| - 1])
  {
    var body := whole + "." + frac;
    assert body[0] == whole[0] && body[|body| - 1] == frac[|frac| - 1];
  }

  lemma {:induction false} SignedBody(negative: bool, body: string)
    requires body != "" && IsDigit(body[0]) && IsDigit(body[|body| - 1])
    ensures var s := (if negative then "-" else "") + body;
            Trim(s) == s && SignOf(s) == (negative, body)
  {
    var s := (if negative then "-" else "") + body;
    assert s[|s| - 1] == body[|body| - 1];
    TrimNumber(s);
    if negative { assert s[1..] == body; } else { assert s == body; }
  }

  lemma {:induction false} ParseSigned(s: string, negative: bool, body: string, whole: string, frac: string)
    requires Trim(s) == s && SignOf(s) == (negative, body)
    requires SplitDecimal(body, 4) == Some((whole, frac))
    ensures FromDecimalString(s) == FromUnits(Signed(negative, Units(whole, frac)))
  {
  }

  lemma {:induction false} PrintedParts(units: int)
    ensures var whole, frac := Digits(Abs(units) / SCALE_FACTOR), PadStart(Digits(Abs(units) % SCALE_FACTOR), 4);
            && |whole| >= 1 && AllDigits(whole) && |frac| == 4 && AllDigits(frac)
            && Units(whole, frac) == Abs(units)
            && ToDecimalString(units) == (if units < 0 then "-" else "") + (whole + "." + frac)
  {
    DigitsValue(Abs(units) / SCALE_FACTOR);
    PaddedFraction(Abs(units) % SCALE_FACTOR);
    var whole, frac := Digits(Abs(units) / SCALE_FACTOR), PadStart(Digits(Abs(units) % SCALE_FACTOR), 4);
    assert (if units < 0 then "-" else "") + whole + "." + frac ==
      (if units < 0 then "-" else "") + (whole + "." + frac);
  }

  /** Parsing what was printed gives the amount back, for every supported amount. */
  lemma {:induction false} ParsePrintRoundTrip(units: int)
    requires -MAX_UNITS <= units <= MAX_UNITS
    ensures FromDecimalString(ToDecimalString(units)) == Ok(units)
  {
    PrintedParts(units);
    var whole, frac := Digits(Abs(units) / SCALE_FACTOR), PadStart(Digits(Abs(units) % SCALE_FACTOR), 4);
    PointedEnds(whole, frac);
    PointedShape(whole, frac, 4);
    SignedBody(units < 0, whole + "." + frac);
    ParseSigned(ToDecimalString(units), units < 0, whole + "." + frac, whole, frac);
  }

  /** A plus sign changes nothing. */
  lemma {:induction false} PlusIgnored(units: int)
    requires 0 <= units <= MAX_UNITS
    ensures FromDecimalString("+" + ToDecimalString(units)) == Ok(units)
  {
    hide Digits, PadStart, SplitDecimal, Trim, SignOf, FromDecimalString;
    PrintedParts(units);
    var whole, frac := Digits(Abs(units) / SCALE_FACTOR), PadStart(Digits(Abs(units) % SCALE_FACTOR), 4);
    var body := whole + "." + frac;
    PointedEnds(whole, frac);
    PointedShape(whole, frac, 4);
    assert ToDecimalString(units) == body;
    PlusBody(body);
    ParseSigned("+" + body, false, body, whole, frac);
  }

  lemma {:induction false} PlusBody(body: string)
    requires body != "" && IsDigit(body[0]) && IsDigit(body[|body| - 1])
    ensures Trim("+" + body) == "+" + body && SignOf("+" + body) == (false, body)
  {
    var s := "+" + body;
    assert s[|s| - 1] == body[|body| - 1] && s[1..] == body;
    TrimNumber(s);
  }

  /** What the pattern admits, with the amount it stands for. */
  ghost predicate Denotes(value: string, units: int) {
    exists sign: string, whole: string, frac: string ::
      DenotesAs(value, units, sign, whole, frac)
  }

  ghost predicate DenotesAs(value: string, units: int, sign: string, whole: string, frac: string) {
    && (sign == "" || sign == "+" || sign == "-")
    && |whole| >= 1 && AllDigits(whole) && |frac| <= 4 && AllDigits(frac)
    && Trim(value) == sign + whole + Tail(frac)
    && units == Signed(sign == "-", DenotedUnits(whole, frac))
  }

  /** Integer part and fraction read at four decimal places. */
  ghost function DenotedUnits(whole: string, frac: string): nat
    requires AllDigits(whole) && AllDigits(frac) && |frac| <= 4
  {
    Value(whole) * SCALE_FACTOR + Value(frac) * Pow10(4 - |frac|)
  }

  lemma {:induction false} UnitsDenoted(whole: string, frac: string)
    requires AllDigits(whole) && AllDigits(frac) && |frac| <= 4
    ensures Units(whole, frac) == DenotedUnits(whole, frac)
  {
    ZerosValue(4 - |frac|);
    ValueConcat(frac, Zeros(4 - |frac|));
    if |frac| == 4 { assert frac + Zeros(0) == frac; }
  }

  function SignText(t: string): (sign: string)
    ensures sign == "" || sign == "+" || sign == "-"
    ensures t == sign + SignOf(t).1 && (sign == "-" <==> SignOf(t).0)
  {
    if t != "" && t[0] == '-' then "-" else if t != "" && t[0] == '+' then "+" else ""
  }

  lemma {:induction false} AcceptedDenotes(value: string, units: int)
    requires FromDecimalString(value) == Ok(units)
    ensures Denotes(value, units) && -MAX_UNITS <= units <= MAX_UNITS
  {
    hide Trim, SignOf, SplitDecimal, Units, DenotesAs;
    var (negative, body) := SignOf(Trim(value));
    var (whole, frac) := SplitDecimal(body, 4).value;
    PartsDenote(value, negative, body, whole, frac);
    assert DenotesAs(value, units, SignText(Trim(value)), whole, frac);
  }

  lemma {:induction false} PartsDenote(value: string, negative: bool, body: string, whole: string, frac: string)
    requires SignOf(Trim(value)) == (negative, body) && DecimalShape(body, 4, whole, frac)
    ensures DenotesAs(value, Signed(negative, Units(whole, frac)), SignText(Trim(value)), whole, frac)
  {
    hide Trim, SignOf, SignText, Tail, Units, DenotedUnits;
    UnitsDenoted(whole, frac);
    var sign := SignText(Trim(value));
    assert sign + (whole + Tail(frac)) == sign + whole + Tail(frac);
  }

  lemma {:induction false} SignedParts(t: string, sign: string, rest: string)
    requires sign == "" || sign == "+" || sign == "-"
    requires t == sign + rest && rest != "" && IsDigit(rest[0])
    ensures SignOf(t) == (sign == "-", rest)
  {
    if sign == "" { assert t == rest; } else { assert t[1..] == rest; }
  }

  lemma {:induction false} DenotedParts(value: string, units: int, sign: string, whole: string, frac: string)
    requires DenotesAs(value, units, sign, whole, frac)
    ensures SignOf(Trim(value)) == (sign == "-", whole + Tail(frac))
  {
    hide Trim, Value, DenotedUnits, Signed, Pow10, SignOf;
    var body := whole + Tail(frac);
    assert sign + body == sign + whole + Tail(frac);
    assert body[0] == whole[0];
    SignedParts(Trim(value), sign, body);
  }

  lemma {:induction false} DenotedAccepted(value: string, units: int)
    requires Denotes(value, units) && -MAX_UNITS <= units <= MAX_UNITS
    ensures FromDecimalString(value) == Ok(units)
  {
    var sign: string, whole: string, frac: string :| DenotesAs(value, units, sign, whole, frac);
    DenotedParts(value, units, sign, whole, frac);
    ShapeSplits(whole + Tail(frac), 4, whole, frac);
    UnitsDenoted(whole, frac);
  }

  /** Acceptance is exactly the decimal shape plus the supported range, and the value is the denoted one. */
  lemma {:induction false} FromDecimalStringExact(value: string, units: int)
    ensures FromDecimalString(value) == Ok(units) <==> Denotes(value, units) && -MAX_UNITS <= units <= MAX_UNITS
  {
    if FromDecimalString(value) == Ok(units) { AcceptedDenotes(value, units); }
    if Denotes(value, units) && -MAX_UNITS <= units <= MAX_UNITS { DenotedAccepted(value, units); }
  }

  /** Text that is not an amount is refused as one. */
  lemma {:induction false} RefusedAsAmount(value: string)
    ensures FromDecimalString(value).Err? ==> FromDecimalString(value) == Err(InvalidAmount)
  {
    hide Trim, SignOf, SplitDecimal, Units;
  }

  /** Every character of an accepted amount is a digit, the point, or the sign in front. */
  lemma {:induction false} AcceptedCharacters(value: string, units: int, i: nat)
    requires FromDecimalString(value) == Ok(units) && i < |Trim(value)|
    ensures var c := Trim(value)[i];
            '0' <= c <= '9' || c == '.' || (i == 0 && (c == '+' || c == '-'))
  {
    hide Trim, Signed, DenotedUnits, FromDecimalString;
    AcceptedDenotes(value, units);
    var sign: string, whole: string, frac: string :| DenotesAs(value, units, sign, whole, frac);
    var t := Trim(value);
    assert t == sign + whole + Tail(frac);
    if |sign| <= i < |sign| + |whole| {
      assert t[i] == whole[i - |sign|];
    } else if i > |sign| + |whole| {
      assert t[i] == frac[i - |sign| - |whole| - 1];
    }
  }

  /** Text that starts and ends with visible characters is not trimmed. */
  lemma {:induction false} VisibleStays(value: string)
    requires value != "" && '!' <= value[0] <= '~' && '!' <= value[|value| - 1] <= '~'
    ensures Trim(value) == value
  {
  }

  /** White space around an amount changes nothing. */
  lemma {:induction false} SpacesIgnored(value: string, c: char)
    requires c == ' ' || c == '\t' || c == '\n' || c == '\r'
    ensures FromDecimalString([c] + value) == FromDecimalString(value)
    ensures FromDecimalString(value + [c]) == FromDecimalString(value)
  {
    hide SignOf, SplitDecimal, Units;
    SpacesTrimmed(value, c);
  }

  lemma {:induction false} SpacesTrimmed(value: string, c: char)
    requires c == ' ' || c == '\t' || c == '\n' || c == '\r'
    ensures Trim([c] + value) == Trim(value) && Trim(value + [c]) == Trim(value)
  {
    assert ([c] + value)[1..] == value;
    TrailingSpace(value, c);
  }

  lemma {:induction false} TrailingSpace(value: string, c: char)
    requires IsSpace(c)
    ensures TrimEnd(TrimStart(value + [c])) == TrimEnd(TrimStart(value))
  {
    if value == "" {
      assert value + [c] == [c];
      assert [c][1..] == [];
    } else if IsSpace(value[0]) {
      assert (value + [c])[1..] == value[1..] + [c];
      TrailingSpace(value[1..], c);
    } else {
      assert (value + [c])[..|value|] == value;
    }
  }

  /** Normalisation prints a canonical form: re-reading it changes neither the value nor the string. */
  lemma {:induction false} NormaliseIdempotent(value: string)
    requires FromDecimalString(value).Ok?
    ensures var printed := ToDecimalString(FromDecimalString(value).value);
            && FromDecimalString(printed) == FromDecimalString(value)
            && ToDecimalString(FromDecimalString(printed).value) == printed
  {
    ParsePrintRoundTrip(FromDecimalString(value).value);
  }

  /** No sign on zero, no leading zeros, no plus, exactly four places. */
  ghost predicate Canonical(s: string, whole: string, frac: string) {
    && AllDigits(whole) && |whole| >= 1 && (|whole| == 1 || whole[0] != '0')
    && AllDigits(frac) && |frac| == 4
    && (|| s == whole + "." + frac
        || (s == "-" + whole + "." + frac && (Value(whole) > 0 || Value(frac) > 0)))
  }

  /** The printer emits exactly the canonical strings. */
  lemma {:induction false} PrintIsCanonical(units: int)
    ensures exists whole: string, frac: string :: Canonical(ToDecimalString(units), whole, frac)
  {
    PrintedParts(units);
    var abs := Abs(units);
    var whole, frac := Digits(abs / SCALE_FACTOR), PadStart(Digits(abs % SCALE_FACTOR), 4);
    DigitsValue(abs / SCALE_FACTOR);
    PaddedFraction(abs % SCALE_FACTOR);
    DigitsLeading(abs / SCALE_FACTOR);
    assert Canonical(ToDecimalString(units), whole, frac);
  }

  lemma {:induction false} DigitsLeading(n: nat)
    ensures |Digits(n)| == 1 || Digits(n)[0] != '0'
  {
    if n >= 10 { DigitsValue(n); }
  }

  lemma {:induction false} CanonicalIsPrinted(s: string, whole: string, frac: string)
    requires Canonical(s, whole, frac)
    ensures exists units: int :: s == ToDecimalString(units)
  {
    DigitsOfValue(whole);
    ValueBound(frac);
    assert Pow10(4) == 10000 by { FourPlaces(); }
    var abs := Value(whole) * SCALE_FACTOR + Value(frac);
    assert abs / SCALE_FACTOR == Value(whole) && abs % SCALE_FACTOR == Value(frac);
    PaddedFraction(Value(frac));
    ValueInjective(PadStart(Digits(Value(frac)), 4), frac);
    if s == whole + "." + frac {
      assert s == ToDecimalString(abs);
    } else {
      assert s == ToDecimalString(-abs);
    }
  }

  lemma {:induction false} FourPlaces()
    ensures Pow10(4) == 10000
  {
    assert Pow10(1) == 10;
    assert Pow10(2) == 100;
    assert Pow10(3) == 1000;
  }

  // ----- exchange rates -----

  datatype FxRate = FxRate(units: nat, scale: nat)

  function RateUnits(whole: string, frac: string): nat
    requires AllDigits(whole) && AllDigits(frac)
  {
    Value(whole) * Pow10(|frac|) + Value(frac)
  }

  function ParseFxRate(rate: string): Result<FxRate> {
    match SplitDecimal(Trim(rate), 10)
    case None => Err(InvalidAmount)
    case Some(parts) =>
      var units := RateUnits(parts.0, parts.1);
      if units <= 0 then Err(InvalidAmount) else Ok(FxRate(units, |parts.1|))
  }

  function ConvertUnits(amount: int, fx: FxRate): Result<int> {
    FromUnits(RoundHalfUp(amount * fx.units, Pow10(fx.scale), 0))
  }

  function ConvertAt(amount: int, rate: string): Result<int> {
    var fx :- ParseFxRate(rate);
    ConvertUnits(amount, fx)
  }

  lemma {:induction false} RateParts(whole: string, frac: string)
    requires |whole| >= 1 && AllDigits(whole)
    requires 1 <= |frac| <= 10 && AllDigits(frac)
    ensures var units := RateUnits(whole, frac);
            ParseFxRate(whole + "." + frac) == if units <= 0 then Err(InvalidAmount) else Ok(FxRate(units, |frac|))
  {
    PointedEnds(whole, frac);
    PointedShape(whole, frac, 10);
    TrimNumber(whole + "." + frac);
  }

  lemma {:induction false} ConvertScaled(amount: int, units: nat, scale: nat, zeros: nat)
    requires units > 0
    ensures ConvertUnits(amount, FxRate(units * Pow10(zeros), scale + zeros)) ==
      ConvertUnits(amount, FxRate(units, scale))
  {
    PowAdd(scale, zeros);
    Associate(amount, units, Pow10(zeros));
    RoundHalfUpScaleFree(amount * units, Pow10(scale), Pow10(zeros));
  }

  lemma {:induction false} RateUnitsScaled(whole: string, frac: string, zeros: nat)
    requires AllDigits(whole) && AllDigits(frac)
    ensures AllDigits(frac + Zeros(zeros))
    ensures RateUnits(whole, frac + Zeros(zeros)) == RateUnits(whole, frac) * Pow10(zeros)
  {
    ZerosValue(zeros);
    ValueConcat(frac, Zeros(zeros));
    PowAdd(|frac|, zeros);
    ScaledUnits(Value(whole), Value(frac), Pow10(|frac|), Pow10(zeros));
  }

  function ConvertParts(amount: int, whole: string, frac: string): Result<int>
    requires AllDigits(whole) && AllDigits(frac)
  {
    var units := RateUnits(whole, frac);
    if units <= 0 then Err(InvalidAmount) else ConvertUnits(amount, FxRate(units, |frac|))
  }

  lemma {:induction false} ConvertWithParts(amount: int, whole: string, frac: string)
    requires |whole| >= 1 && AllDigits(whole)
    requires 1 <= |frac| <= 10 && AllDigits(frac)
    ensures ConvertAt(amount, whole + "." + frac) == ConvertParts(amount, whole, frac)
  {
    RateParts(whole, frac);
  }

  lemma {:induction false} ConvertPartsScaled(amount: int, whole: string, frac: string, zeros: nat)
    requires AllDigits(whole) && AllDigits(frac)
    ensures AllDigits(frac + Zeros(zeros))
    ensures ConvertParts(amount, whole, frac + Zeros(zeros)) == ConvertParts(amount, whole, frac)
  {
    RateUnitsScaled(whole, frac, zeros);
    var units := RateUnits(whole, frac);
    if units > 0 {
      MonotoneTimes(1, Pow10(zeros), units);
      ConvertScaled(amount, units, |frac|, zeros);
    }
  }

  /** Trailing zeros after the point of a rate change no conversion. */
  lemma {:induction false} ConversionIgnoresTrailingZeros(amount: int, whole: string, frac: string, zeros: nat)
    requires |whole| >= 1 && AllDigits(whole)
    requires frac != "" && AllDigits(frac) && |frac| + zeros <= 10
    ensures ConvertAt(amount, whole + "." + (frac + Zeros(zeros))) == ConvertAt(amount, whole + "." + frac)
  {
    ConvertPartsScaled(amount, whole, frac, zeros);
    ConvertWithParts(amount, whole, frac);
    ConvertWithParts(amount, whole, frac + Zeros(zeros));
  }

  lemma {:induction false} ScaledUnits(w: nat, f: nat, p: nat, z: nat)
    ensures w * (p * z) + f * z == (w * p + f) * z
  {
    Associate(w, p, z);
    Distribute(w * p, f, z);
  }

  lemma {:induction false} PowAdd(a: nat, b: nat)
    ensures Pow10(a + b) == Pow10(a) * Pow10(b)
  {
    if b > 0 {
      PowAdd(a, b - 1);
      assert Pow10(a) * (10 * Pow10(b - 1)) == 10 * (Pow10(a) * Pow10(b - 1));
    }
  }

  // ----- conversion, stated on the public operation -----

  ghost predicate RateDenotes(rate: string, fx: FxRate, whole: string, frac: string) {
    && DecimalShape(Trim(rate), 10, whole, frac)
    && fx == FxRate(RateUnits(whole, frac), |frac|) && fx.units > 0
  }

  /** A rate is read exactly when it is digits with at most ten decimals and not zero; its value is the one written. */
  lemma {:induction false} ParseFxRateExact(rate: string, fx: FxRate)
    ensures ParseFxRate(rate) == Ok(fx) <==> exists whole: string, frac: string :: RateDenotes(rate, fx, whole, frac)
  {
    hide Trim, Value, Find;
    if ParseFxRate(rate) == Ok(fx) {
      var (whole, frac) := SplitDecimal(Trim(rate), 10).value;
      assert RateDenotes(rate, fx, whole, frac);
    }
    if exists whole: string, frac: string :: RateDenotes(rate, fx, whole, frac) {
      var whole: string, frac: string :| RateDenotes(rate, fx, whole, frac);
      ShapeSplits(Trim(rate), 10, whole, frac);
    }
  }

  /** A rate that cannot be read, or a result out of range, is an invalid amount. */
  lemma {:induction false} ConvertRefusal(amount: int, rate: string)
    ensures ConvertAt(amount, rate).Err? ==> ConvertAt(amount, rate) == Err(InvalidAmount)
  {
    hide Trim, SplitDecimal, RoundHalfUp, Value, Pow10;
  }

  /** A conversion yields r exactly when the rate is readable, r is the nearest amount, ties away from zero, and r
      is in range. */
  lemma {:induction false} ConvertAtExact(amount: int, rate: string, r: int)
    ensures ConvertAt(amount, rate) == Ok(r) <==>
      && ParseFxRate(rate).Ok?
      && NearestHalfUp(r, amount * ParseFxRate(rate).value.units, Pow10(ParseFxRate(rate).value.scale))
      && -MAX_UNITS <= r <= MAX_UNITS
  {
    hide NearestHalfUp, RoundHalfUp, Pow10, Trim, SplitDecimal, RateUnits;
    if ParseFxRate(rate).Ok? {
      var fx := ParseFxRate(rate).value;
      var n, d := amount * fx.units, Pow10(fx.scale);
      var nearest := RoundHalfUp(n, d, 0);
      RoundHalfUpIsNearest(n, d, 0);
      WholePower(n);
      if NearestHalfUp(r, n, d) { NearestIsUnique(r, nearest, n, d); }
    }
  }

  lemma {:induction false} WholePower(n: int)
    ensures n * Pow10(0) == n
  {
    assert Pow10(0) == 1;
  }

  function ConvertedTotal(parts: seq<int>, rate: string): int
    requires forall i :: 0 <= i < |parts| ==> ConvertAt(parts[i], rate).Ok?
  {
    if parts == [] then 0
    else ConvertedTotal(parts[..|parts| - 1], rate) + ConvertAt(parts[|parts| - 1], rate).value
  }

  lemma {:induction false} ConvertedTotalIs(parts: seq<int>, rate: string)
    requires forall i :: 0 <= i < |parts| ==> ConvertAt(parts[i], rate).Ok?
    requires ParseFxRate(rate).Ok?
    ensures ConvertedTotal(parts, rate) ==
      Converted(parts, ParseFxRate(rate).value.units, Pow10(ParseFxRate(rate).value.scale))
  {
    hide RoundHalfUp, Pow10, ParseFxRate;
    if parts != [] {
      assert ConvertAt(parts[|parts| - 1], rate).Ok?;
      ConvertedTotalIs(parts[..|parts| - 1], rate);
    }
  }

  /** Splitting an amount into n parts and converting each changes the total by at most (n + 1) / 2 minor units. */
  lemma {:induction false} SplitConversion(parts: seq<int>, rate: string)
    requires forall i :: 0 <= i < |parts| ==> ConvertAt(parts[i], rate).Ok?
    requires ConvertAt(Sum(parts), rate).Ok?
    ensures 2 * Abs(ConvertedTotal(parts, rate) - ConvertAt(Sum(parts), rate).value) <= |parts| + 1
  {
    hide RoundHalfUp, Pow10, ParseFxRate, Converted, ConvertedTotal;
    ConvertedTotalIs(parts, rate);
    SplitConversionBound(parts, ParseFxRate(rate).value.units, Pow10(ParseFxRate(rate).value.scale));
  }
}
