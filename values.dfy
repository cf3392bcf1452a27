/**
 * The parameter variant of the letter registry (`Value` = int | double | std::string) and
 * the conversions `value_cast` and `parse_token` apply to it, including the parts of
 * std::stoi and std::stod they rely on.
 */
module Values {
  import opened Wrappers

  datatype ValueKind = IntKind | DoubleKind | TextKind

  /** A double is modelled as the exact real it denotes. */
  datatype Value = IntVal(i: int32) | DoubleVal(d: real) | TextVal(s: string) {
    function Kind(): ValueKind {
      match this
      case IntVal(_) => IntKind
      case DoubleVal(_) => DoubleKind
      case TextVal(_) => TextKind
    }
  }

  /** The std::runtime_error / std::logic_error cases of letter_binds.h, one per message. */
  datatype Error =
    | TypeMismatch          // "type mismatch in value_cast"
    | InvalidArgument       // std::stoi / std::stod found no number
    | OutOfRange            // std::stoi result outside int
    | UndefinedConversion   // static_cast<int> of a double outside int (undefined in C++)
    | UnknownParameter      // "unknown parameter name"
    | UnknownLetter         // "initialize / set_params / set_param / getType_info: unknown letter"
    | UnknownType           // "unknown processor type"
    | UnknownCommand        // "unknown command (expected 'set')"
    | IncompleteCommand     // "incomplete set command"
    | KeyWithoutValue       // "parameter key without value"

  // ---------------------------------------------------------------- character classes

  /** std::isspace in the "C" locale. */
  predicate IsSpace(c: char) {
    c == ' ' || c == '\t' || c == '\n' || c == '\r' || c as int == 11 || c as int == 12
  }

  predicate IsDigit(c: char) { '0' <= c <= '9' }

  function DigitValue(c: char): (d: nat)
    requires IsDigit(c)
    ensures d < 10
  {
    c as int - '0' as int
  }

  function SkipSpace(s: string, i: nat): (j: nat)
    requires i <= |s|
    ensures i <= j <= |s|
    ensures forall k :: i <= k < j ==> IsSpace(s[k])
    ensures j < |s| ==> !IsSpace(s[j])
    decreases |s| - i
  {
    if i < |s| && IsSpace(s[i]) then SkipSpace(s, i + 1) else i
  }

  /** End of the maximal run of decimal digits starting at `i`. */
  function DigitRunEnd(s: string, i: nat): (j: nat)
    requires i <= |s|
    ensures i <= j <= |s|
    ensures forall k :: i <= k < j ==> IsDigit(s[k])
    ensures j < |s| ==> !IsDigit(s[j])
    decreases |s| - i
  {
    if i < |s| && IsDigit(s[i]) then DigitRunEnd(s, i + 1) else i
  }

  predicate AllDigits(d: string) {
    forall k :: 0 <= k < |d| ==> IsDigit(d[k])
  }

  /** The number a run of decimal digits denotes, most significant digit first. */
  function DigitsValue(d: string): nat
    requires AllDigits(d)
  {
    if d == [] then 0 else DigitsValue(d[..|d| - 1]) * 10 + DigitValue(d[|d| - 1])
  }

  function Pow10(n: nat): (p: nat)
    ensures p >= 1
  {
    if n == 0 then 1 else 10 * Pow10(n - 1)
  }

  /** m * 10^e as an exact real. */
  function Scale(m: nat, e: int): real {
    if e >= 0 then (m * Pow10(e)) as real else m as real / Pow10(-e) as real
  }

  // ---------------------------------------------------------------- std::stoi, std::stod

  /** Position after an optional '+' or '-' at `i`, and whether it was '-'. */
  function SignEnd(s: string, i: nat): (j: nat)
    requires i <= |s|
    ensures i <= j <= |s| && j <= i + 1
  {
    if i < |s| && (s[i] == '-' || s[i] == '+') then i + 1 else i
  }

  predicate IsMinusAt(s: string, i: nat) {
    i < |s| && s[i] == '-'
  }

  /**
   * std::stoi(s) with base 10: leading white space, an optional sign and the longest digit
   * run; the rest of the string is ignored. No digits throw std::invalid_argument, a value
   * outside int throws std::out_of_range.
   */
  function StoI(s: string): (r: Result<int32, Error>)
    ensures r.Err? ==> r.error == InvalidArgument || r.error == OutOfRange
  {
    var i := SkipSpace(s, 0);
    var j := SignEnd(s, i);
    var e := DigitRunEnd(s, j);
    if e == j then Err(InvalidArgument)
    else
      var magnitude: int := DigitsValue(s[j..e]);
      var v: int := if IsMinusAt(s, i) then -magnitude else magnitude;
      if -0x8000_0000 <= v < 0x8000_0000 then Ok(v) else Err(OutOfRange)
  }

  /** The exponent of a decimal literal whose mantissa ends at `q`; 0 when there is none. */
  function Exponent(s: string, q: nat): int
    requires q <= |s|
  {
    if q < |s| && (s[q] == 'e' || s[q] == 'E') then
      var j := SignEnd(s, q + 1);
      var e := DigitRunEnd(s, j);
      if e == j then 0
      else
        var m: int := DigitsValue(s[j..e]);
        if IsMinusAt(s, q + 1) then -m else m
    else 0
  }

  /**
   * std::stod(s) on decimal literals: leading white space, an optional sign, digits with at
   * most one '.', at least one digit, and an optional exponent that is read only when digits
   * follow the 'e'. The value is the exact rational the literal denotes.
   */
  function StoD(s: string): (r: Result<real, Error>)
    ensures r.Err? ==> r.error == InvalidArgument
  {
    var i := SkipSpace(s, 0);
    var j := SignEnd(s, i);
    var intEnd := DigitRunEnd(s, j);
    var hasDot := intEnd < |s| && s[intEnd] == '.';
    var fracStart := if hasDot then intEnd + 1 else intEnd;
    var fracEnd := DigitRunEnd(s, fracStart);
    if intEnd == j && fracEnd == fracStart then Err(InvalidArgument)
    else
      var digits := s[j..intEnd] + s[fracStart..fracEnd];
      assert AllDigits(digits);
      var magnitude := Scale(DigitsValue(digits), Exponent(s, fracEnd) - (fracEnd - fracStart));
      Ok(if IsMinusAt(s, i) then -magnitude else magnitude)
  }

  // ---------------------------------------------------------------- decimal rendering

  function DigitChar(d: nat): (c: char)
    requires d < 10
    ensures IsDigit(c) && DigitValue(c) == d
  {
    ('0' as int + d) as char
  }

  /** The decimal rendering of a natural number, the inverse partner of DigitsValue. */
  function NatToString(n: nat): (s: string)
    ensures |s| > 0 && AllDigits(s)
  {
    if n < 10 then [DigitChar(n)] else NatToString(n / 10) + [DigitChar(n % 10)]
  }

  function IntToString(n: int): (s: string)
    ensures |s| > 0
  {
    if n < 0 then "-" + NatToString(-n) else NatToString(n)
  }

  lemma {:induction false} DigitsValueOfNatToString(n: nat)
    ensures DigitsValue(NatToString(n)) == n
  {
    if n >= 10 {
      var s := NatToString(n);
      assert s[..|s| - 1] == NatToString(n / 10);
      DigitsValueOfNatToString(n / 10);
    }
  }

  lemma DigitRunReachesEnd(s: string, j: nat)
    requires j <= |s| && AllDigits(s[j..])
    ensures DigitRunEnd(s, j) == |s|
  {
  }

  /** std::stoi reads back every int's decimal rendering. */
  lemma StoIRoundTrip(n: int32)
    ensures StoI(IntToString(n)) == Ok(n)
  {
    var s := IntToString(n);
    var m: nat := if n < 0 then -(n as int) else n;
    var j := if n < 0 then 1 else 0;
    assert s[j..] == NatToString(m);
    assert !IsSpace(s[0]);
    assert SkipSpace(s, 0) == 0;
    assert SignEnd(s, 0) == j;
    DigitRunReachesEnd(s, j);
    DigitsValueOfNatToString(m);
    assert s[j..|s|] == NatToString(m);
    assert DigitsValue(s[j..|s|]) == m;
    assert IsMinusAt(s, 0) <==> n < 0;
  }

  /** std::stod reads an integer's decimal rendering as that integer. */
  lemma StoDOfIntToString(n: int)
    ensures StoD(IntToString(n)) == Ok(n as real)
  {
    var s := IntToString(n);
    var m: nat := if n < 0 then -(n as int) else n;
    var j := if n < 0 then 1 else 0;
    assert s[j..] == NatToString(m);
    assert !IsSpace(s[0]);
    assert SkipSpace(s, 0) == 0;
    assert SignEnd(s, 0) == j;
    DigitRunReachesEnd(s, j);
    DigitsValueOfNatToString(m);
    assert s[j..|s|] + s[|s|..|s|] == NatToString(m);
    assert Exponent(s, |s|) == 0;
  }

  // ---------------------------------------------------------------- value_cast

  /** static_cast<int>(double): the fraction is dropped, towards zero. */
  function TruncateTowardZero(d: real): (r: int)
    ensures d >= 0.0 ==> r as real <= d < r as real + 1.0
    ensures d < 0.0 ==> r as real - 1.0 < d <= r as real
  {
    if d >= 0.0 then d.Floor else -((-d).Floor)
  }

  predicate InInt32(x: int) { -0x8000_0000 <= x < 0x8000_0000 }

  /**
   * lreg_detail::value_cast<T>: the same alternative is returned unchanged, int and double
   * convert into each other by static_cast, text converts to int by std::stoi and to double by
   * std::stod, and everything else is a type mismatch.
   */
  function ValueCast(v: Value, target: ValueKind): (r: Result<Value, Error>)
    ensures r.Ok? ==> r.value.Kind() == target
    ensures v.Kind() == target ==> r == Ok(v)
    ensures target == TextKind && v.Kind() != TextKind ==> r == Err(TypeMismatch)
    ensures v.IntVal? && target == DoubleKind ==> r == Ok(DoubleVal(v.i as real))
    ensures v.DoubleVal? && target == IntKind ==>
      (r.Ok? <==> InInt32(TruncateTowardZero(v.d))) &&
      (r.Ok? ==> r.value.i == TruncateTowardZero(v.d)) && (r.Err? ==> r.error == UndefinedConversion)
    ensures v.TextVal? && target == IntKind ==>
      (r.Ok? <==> StoI(v.s).Ok?) && (r.Ok? ==> r.value.i == StoI(v.s).value) && (r.Err? ==> r.error == StoI(v.s).error)
    ensures v.TextVal? && target == DoubleKind ==>
      (r.Ok? <==> StoD(v.s).Ok?) && (r.Ok? ==> r.value.d == StoD(v.s).value) && (r.Err? ==> r.error == StoD(v.s).error)
  {
    match v
    case IntVal(i) =>
      (match target
       case IntKind => Ok(v)
       case DoubleKind => Ok(DoubleVal(i as real))
       case TextKind => Err(TypeMismatch))
    case DoubleVal(d) =>
      (match target
       case IntKind =>
         var t := TruncateTowardZero(d);
         if InInt32(t) then Ok(IntVal(t)) else Err(UndefinedConversion)
       case DoubleKind => Ok(v)
       case TextKind => Err(TypeMismatch))
    case TextVal(s) =>
      (match target
       case IntKind => (match StoI(s) case Ok(i) => Ok(IntVal(i)) case Err(e) => Err(e))
       case DoubleKind => (match StoD(s) case Ok(d) => Ok(DoubleVal(d)) case Err(e) => Err(e))
       case TextKind => Ok(v))
  }

  /** An int survives the trip to double and back: the widening loses nothing. */
  lemma IntDoubleRoundTrip(i: int32)
    ensures ValueCast(ValueCast(IntVal(i), DoubleKind).value, IntKind) == Ok(IntVal(i))
  {
    assert TruncateTowardZero(i as real) == i;
  }

  /** Text holding an int's rendering casts to that int. */
  lemma TextToIntRoundTrip(n: int32)
    ensures ValueCast(TextVal(IntToString(n)), IntKind) == Ok(IntVal(n))
  {
    StoIRoundTrip(n);
  }

  // ---------------------------------------------------------------- parse_token

  /** A token is numeric when it is non-empty and starts with a digit, '-' or '+'. */
  predicate IsNumericToken(tok: string) {
    |tok| > 0 && (IsDigit(tok[0]) || tok[0] == '-' || tok[0] == '+')
  }

  /** tok.find_first_of(".eE") != npos */
  predicate HasFloatMark(tok: string) {
    exists k :: 0 <= k < |tok| && (tok[k] == '.' || tok[k] == 'e' || tok[k] == 'E')
  }

  /**
   * parse_token: a numeric token becomes a double when it holds '.', 'e' or 'E' and an int
   * otherwise (the conversion may throw); any other token is kept as text.
   */
  function ParseToken(tok: string): (r: Result<Value, Error>)
    ensures !IsNumericToken(tok) ==> r == Ok(TextVal(tok))
    ensures IsNumericToken(tok) && r.Ok? ==> r.value.Kind() == (if HasFloatMark(tok) then DoubleKind else IntKind)
    ensures IsNumericToken(tok) && HasFloatMark(tok) ==>
      (r.Ok? <==> StoD(tok).Ok?) && (r.Ok? ==> r.value == DoubleVal(StoD(tok).value)) && (r.Err? ==> r.error == StoD(tok).error)
    ensures IsNumericToken(tok) && !HasFloatMark(tok) ==>
      (r.Ok? <==> StoI(tok).Ok?) && (r.Ok? ==> r.value == IntVal(StoI(tok).value)) && (r.Err? ==> r.error == StoI(tok).error)
  {
    if !IsNumericToken(tok) then Ok(TextVal(tok))
    else if HasFloatMark(tok) then
      (match StoD(tok) case Ok(d) => Ok(DoubleVal(d)) case Err(e) => Err(e))
    else
      (match StoI(tok) case Ok(i) => Ok(IntVal(i)) case Err(e) => Err(e))
  }

  /** Every int's decimal rendering is parsed back as that int. */
  lemma ParseTokenOfInt(n: int32)
    ensures ParseToken(IntToString(n)) == Ok(IntVal(n))
  {
    var s := IntToString(n);
    var m: nat := if n < 0 then -(n as int) else n;
    var j := if n < 0 then 1 else 0;
    assert s[j..] == NatToString(m);
    assert AllDigits(s[j..]);
    forall k | 0 <= k < |s|
      ensures s[k] != '.' && s[k] != 'e' && s[k] != 'E'
    {
      if k >= j {
        assert s[k] == s[j..][k - j];
      }
    }
    assert !HasFloatMark(s);
    StoIRoundTrip(n);
  }
}
