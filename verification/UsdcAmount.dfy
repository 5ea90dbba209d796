/** Decimal text: JavaScript's conversions between natural numbers and digit strings. */
module DecimalText {

  predicate IsDigit(c: char) { '0' <= c <= '9' }

  predicate AllDigits(s: string) { forall i :: 0 <= i < |s| ==> IsDigit(s[i]) }

  function Digit(d: int): (c: char)
    requires 0 <= d < 10
    ensures IsDigit(c)
  {
    ('0' as int + d) as char
  }

  function Pow10(n: nat): (p: int)
    ensures p > 0
  {
    if n == 0 then 1 else 10 * Pow10(n - 1)
  }

  /** `BigInt.prototype.toString`. */
  function ToText(n: nat): (s: string)
    ensures |s| > 0 && AllDigits(s)
  {
    if n < 10 then [Digit(n)] else ToText(n / 10) + [Digit(n % 10)]
  }

  /** `BigInt(s)` on a string of digits; the empty string is zero. */
  function ValueOf(s: string): (n: nat)
    requires AllDigits(s)
  {
    if s == "" then 0 else 10 * ValueOf(s[..|s| - 1]) + (s[|s| - 1] as int - '0' as int)
  }

  function Zeros(n: nat): (s: string)
    ensures |s| == n && AllDigits(s) && forall i :: 0 <= i < n ==> s[i] == '0'
  {
    seq(n, i => '0')
  }

  function PadStart(s: string, width: nat): string {
    if |s| >= width then s else Zeros(width - |s|) + s
  }

  function PadEnd(s: string, width: nat): string {
    if |s| >= width then s else s + Zeros(width - |s|)
  }

  lemma {:induction false} ValueOfText(n: nat)
    ensures ValueOf(ToText(n)) == n
  {
    if n >= 10 {
      ValueOfText(n / 10);
      assert ToText(n)[..|ToText(n)| - 1] == ToText(n / 10);
    }
  }

  /** Reading a concatenation shifts its left part. */
  lemma {:induction false} ValueOfConcat(s: string, t: string)
    requires AllDigits(s) && AllDigits(t)
    ensures ValueOf(s + t) == ValueOf(s) * Pow10(|t|) + ValueOf(t)
    decreases |t|
  {
    if t == "" {
      assert s + t == s;
    } else {
      var u := t[..|t| - 1];
      ValueOfConcat(s, u);
      assert (s + t)[..|s + t| - 1] == s + u;
      ShiftStep(ValueOf(s), Pow10(|u|), ValueOf(u), t[|t| - 1] as int - '0' as int);
    }
  }

  lemma ShiftStep(x: int, power: int, y: int, digit: int)
    ensures 10 * (x * power + y) + digit == x * (10 * power) + (10 * y + digit)
  {}

  lemma {:induction false} ValueOfZeros(n: nat)
    ensures ValueOf(Zeros(n)) == 0
  {
    if n > 0 {
      assert Zeros(n)[..n - 1] == Zeros(n - 1);
      ValueOfZeros(n - 1);
    }
  }

  lemma ValueOfPadStart(s: string, width: nat)
    requires AllDigits(s)
    ensures AllDigits(PadStart(s, width)) && ValueOf(PadStart(s, width)) == ValueOf(s)
  {
    if |s| < width {
      ValueOfConcat(Zeros(width - |s|), s);
      ValueOfZeros(width - |s|);
    }
  }

  lemma ValueOfPadEnd(s: string, width: nat)
    requires AllDigits(s) && |s| <= width
    ensures AllDigits(PadEnd(s, width)) && ValueOf(PadEnd(s, width)) == ValueOf(s) * Pow10(width - |s|)
  {
    if |s| < width {
      ValueOfConcat(s, Zeros(width - |s|));
      ValueOfZeros(width - |s|);
    }
  }

  /** Printing what was read restores the digits, up to leading zeros. */
  lemma {:induction false} TextOfValue(s: string)
    requires AllDigits(s) && s != ""
    ensures |ToText(ValueOf(s))| <= |s| && PadStart(ToText(ValueOf(s)), |s|) == s
    ensures s[0] != '0' ==> ToText(ValueOf(s)) == s
  {
    if |s| == 1 {
      assert s[..0] == "";
    } else {
      var front := s[..|s| - 1];
      TextOfValue(front);
      var n, last := ValueOf(front), s[|s| - 1];
      assert front[0] == s[0] && s == front + [last];
      TextOfAppended(n, last);
      if n > 0 {
        PadLonger(ToText(n), |front|, last);
      } else {
        PadLonger("", |front|, last);
        assert front == Zeros(|front|) by { assert front == Zeros(|front| - 1) + "0"; }
      }
    }
  }

  lemma TextOfAppended(n: nat, last: char)
    requires IsDigit(last)
    ensures ToText(10 * n + (last as int - '0' as int)) == (if n > 0 then ToText(n) else "") + [last]
  {}

  lemma PadLonger(s: string, width: nat, last: char)
    requires |s| <= width
    ensures PadStart(s + [last], width + 1) == PadStart(s, width) + [last]
  {}
}

/** The amount printer and parser of the DeFindex service. */
module UsdcAmount {
  import opened Outcomes
  import opened DecimalText

  const USDC_DECIMALS := 7
  const SCALE := 10_000_000
  const MAX_I128 := 0x7FFF_FFFF_FFFF_FFFF_FFFF_FFFF_FFFF_FFFF

  datatype AmountError = NotAnAmount | NotPositive | ExceedsI128

  function FormatUnits(value: int, decimals: nat): string {
    (if value < 0 then "-" else "") + PutPoint(PaddedDigits(value, decimals), decimals)
  }

  /** The printed digits, before the point is put in. */
  function PaddedDigits(value: int, decimals: nat): (s: string)
    ensures |s| > decimals && AllDigits(s)
  {
    PadStart(ToText(if value < 0 then -value else value), decimals + 1)
  }

  function PutPoint(str: string, decimals: nat): string
    requires |str| >= decimals
  {
    str[..|str| - decimals] + "." + str[|str| - decimals..]
  }

  /** White space and line terminators, as `String.prototype.trim` removes them. */
  predicate IsWhite(c: char) {
    || '\U{0009}' <= c <= '\U{000D}' || c == ' ' || c == '\U{00A0}' || c == '\U{1680}'
    || '\U{2000}' <= c <= '\U{200A}' || c == '\U{2028}' || c == '\U{2029}'
    || c == '\U{202F}' || c == '\U{205F}' || c == '\U{3000}' || c == '\U{FEFF}'
  }

  function Trim(s: string): (t: string)
    ensures t == "" || (!IsWhite(t[0]) && !IsWhite(t[|t| - 1]))
    decreases |s|
  {
    if s == "" then s
    else if IsWhite(s[0]) then Trim(s[1..])
    else if IsWhite(s[|s| - 1]) then Trim(s[..|s| - 1])
    else s
  }

  /** Groups 1 and 2 of the expression /^(\d+)(?:\.(\d{1,7}))?$/; no group 2 is "". */
  function MatchAmount(s: string): Option<(string, string)> {
    var dot := IndexOfDot(s);
    var whole, fraction := s[..dot], s[dot..];
    if whole == "" || !AllDigits(whole) then None
    else if fraction == "" then Some((whole, ""))
    else if 2 <= |fraction| <= 8 && AllDigits(fraction[1..]) then Some((whole, fraction[1..]))
    else None
  }

  function IndexOfDot(s: string): (i: nat)
    ensures i <= |s| && (i < |s| ==> s[i] == '.') && '.' !in s[..i]
  {
    if s == "" || s[0] == '.' then 0
    else
      assert forall i :: 0 <= i <= |s| - 1 ==> s[..i + 1] == [s[0]] + s[1..][..i];
      1 + IndexOfDot(s[1..])
  }

  function ParseUsdcAmount(amount: string): Result<int, AmountError> {
    match MatchAmount(Trim(amount))
    case None => Err(NotAnAmount)
    case Some((whole, fraction)) =>
      var units := UnitsOf(whole, fraction);
      if units <= 0 then Err(NotPositive)
      else if units > MAX_I128 then Err(ExceedsI128)
      else Ok(units)
  }

  function UnitsOf(whole: string, fraction: string): int
    requires AllDigits(whole) && AllDigits(fraction)
  {
    ValueOf(whole) * SCALE + ValueOf(PadEnd(fraction, USDC_DECIMALS))
  }

  // ---- What the text means ----------------------------------------------------------

  ghost predicate Written(s: string, whole: string, fraction: string) {
    && whole != "" && AllDigits(whole) && AllDigits(fraction) && |fraction| <= USDC_DECIMALS
    && s == whole + (if fraction == "" then "" else "." + fraction)
  }

  /** whole.fraction scaled by 10^7. */
  ghost function Scaled(whole: string, fraction: string): int
    requires AllDigits(whole) && AllDigits(fraction) && |fraction| <= USDC_DECIMALS
  {
    ValueOf(whole) * Pow10(USDC_DECIMALS) + ValueOf(fraction) * Pow10(USDC_DECIMALS - |fraction|)
  }

  /** `s` is a decimal numeral of at most seven places that denotes `units` / 10^7. */
  ghost predicate Denotes(s: string, units: int) {
    exists whole, fraction :: Written(s, whole, fraction) && units == Scaled(whole, fraction)
  }

  lemma {:induction false} UnitsAreScaled(whole: string, fraction: string)
    requires AllDigits(whole) && AllDigits(fraction) && |fraction| <= USDC_DECIMALS
    ensures UnitsOf(whole, fraction) == Scaled(whole, fraction)
    ensures |fraction| == USDC_DECIMALS ==> UnitsOf(whole, fraction) == ValueOf(whole + fraction)
  {
    ValueOfPadEnd(fraction, USDC_DECIMALS);
    assert Pow10(3) == 1000 && Pow10(5) == 100_000 && Pow10(USDC_DECIMALS) == SCALE;
    if |fraction| == USDC_DECIMALS { ValueOfConcat(whole, fraction); }
  }

  lemma MatchIsUnique(s: string, whole: string, fraction: string)
    ensures Written(s, whole, fraction) <==> MatchAmount(s) == Some((whole, fraction))
  {
    var dot := IndexOfDot(s);
    if Written(s, whole, fraction) {
      assert s[..|whole|] == whole;
      if fraction != "" {
        assert s[|whole|] == '.';
        assert s[dot..][1..] == fraction;
      }
    }
    if MatchAmount(s) == Some((whole, fraction)) {
      assert s == s[..dot] + s[dot..];
      if fraction != "" { assert s[dot..] == "." + fraction; }
    }
  }

  /** The parser accepts exactly the numerals of positive i128 amounts, with their own value. */
  lemma {:induction false} ParsesExactlyWhatIsDenoted(amount: string, units: int)
    ensures ParseUsdcAmount(amount) == Ok(units) <==> Denotes(Trim(amount), units) && 0 < units <= MAX_I128
  {
    var s := Trim(amount);
    if MatchAmount(s).Some? {
      var (whole, fraction) := MatchAmount(s).value;
      MatchIsUnique(s, whole, fraction);
      UnitsAreScaled(whole, fraction);
    }
    if Denotes(s, units) {
      var whole, fraction :| Written(s, whole, fraction) && units == Scaled(whole, fraction);
      MatchIsUnique(s, whole, fraction);
    }
  }

  /** What a refusal says about the text: no numeral, zero, or beyond i128. */
  lemma RefusalsHaveReasons(amount: string)
    ensures ParseUsdcAmount(amount) == Err(NotAnAmount) <==> !exists units :: Denotes(Trim(amount), units)
    ensures ParseUsdcAmount(amount) == Err(NotPositive) <==> Denotes(Trim(amount), 0)
    ensures ParseUsdcAmount(amount) == Err(ExceedsI128) <==> exists units :: Denotes(Trim(amount), units) && units > MAX_I128
  {
    var s := Trim(amount);
    if MatchAmount(s).Some? {
      var (whole, fraction) := MatchAmount(s).value;
      MatchIsUnique(s, whole, fraction);
      UnitsAreScaled(whole, fraction);
      assert Denotes(s, UnitsOf(whole, fraction));
    }
    forall units: int | Denotes(s, units) ensures MatchAmount(s).Some? && units == UnitsOf(MatchAmount(s).value.0, MatchAmount(s).value.1) {
      var whole, fraction :| Written(s, whole, fraction) && units == Scaled(whole, fraction);
      MatchIsUnique(s, whole, fraction);
      UnitsAreScaled(whole, fraction);
    }
  }

  ghost predicate AllWhite(s: string) { forall i :: 0 <= i < |s| ==> IsWhite(s[i]) }

  /** Trimming takes white space off both ends, all of it, and nothing else. */
  lemma {:induction false} TrimTakesWhiteOnly(s: string) returns (before: string, after: string)
    ensures s == before + Trim(s) + after && AllWhite(before) && AllWhite(after)
    decreases |s|
  {
    hide IsWhite;
    before, after := "", "";
    if s == "" {
    } else if IsWhite(s[0]) {
      before, after := TrimTakesWhiteOnly(s[1..]);
      assert s == [s[0]] + s[1..];
      before := [s[0]] + before;
    } else if IsWhite(s[|s| - 1]) {
      before, after := TrimTakesWhiteOnly(s[..|s| - 1]);
      assert s == s[..|s| - 1] + [s[|s| - 1]];
      after := after + [s[|s| - 1]];
    }
  }

  // ---- Printing and parsing ---------------------------------------------------------

  lemma PaddedDigitsValue(value: int, decimals: nat)
    ensures ValueOf(PaddedDigits(value, decimals)) == if value < 0 then -value else value
  {
    var abs := if value < 0 then -value else value;
    ValueOfText(abs);
    ValueOfPadStart(ToText(abs), decimals + 1);
  }

  lemma PointIsPut(str: string, decimals: nat)
    requires |str| > decimals
    ensures var n, text := |str| - decimals, PutPoint(str, decimals);
            && |text| == |str| + 1 && text[..n] == str[..n] && text[n] == '.' && text[n + 1..] == str[n..]
            && text[0] == str[0] && (decimals > 0 ==> text[|text| - 1] == str[|str| - 1])
            && str == str[..n] + str[n..]
  {}

  lemma PrintedShape(value: int)
    requires value >= 0
    ensures FormatUnits(value, USDC_DECIMALS) == PutPoint(PaddedDigits(value, USDC_DECIMALS), USDC_DECIMALS)
  {}

  lemma TrimKeepsPointed(str: string)
    requires |str| > USDC_DECIMALS && AllDigits(str)
    ensures Trim(PutPoint(str, USDC_DECIMALS)) == PutPoint(str, USDC_DECIMALS)
  {
    PointIsPut(str, USDC_DECIMALS);
  }

  lemma RoundTrip(value: int)
    requires 0 < value <= MAX_I128
    ensures ParseUsdcAmount(FormatUnits(value, USDC_DECIMALS)) == Ok(value)
  {
    var str := PaddedDigits(value, USDC_DECIMALS);
    PrintedShape(value);
    PaddedDigitsValue(value, USDC_DECIMALS);
    TrimKeepsPointed(str);
    ParsesPointed(str);
  }

  /** Reading pointed digits gives the value of the digits. */
  lemma {:induction false} ParsesPointed(str: string)
    requires |str| > USDC_DECIMALS && AllDigits(str)
    ensures MatchAmount(PutPoint(str, USDC_DECIMALS)).Some?
    ensures var (whole, fraction) := MatchAmount(PutPoint(str, USDC_DECIMALS)).value;
            UnitsOf(whole, fraction) == ValueOf(str)
  {
    var n := |str| - USDC_DECIMALS;
    var whole, fraction := str[..n], str[n..];
    assert PutPoint(str, USDC_DECIMALS) == whole + ("." + fraction);
    MatchIsUnique(PutPoint(str, USDC_DECIMALS), whole, fraction);
    UnitsAreScaled(whole, fraction);
    assert str == whole + fraction;
  }

  /** Seven decimals, and no leading zero beyond a single one before the point. */
  ghost predicate Canonical(s: string) {
    exists digits :: CanonicalDigits(digits) && s == PutPoint(digits, USDC_DECIMALS)
  }

  ghost predicate CanonicalDigits(s: string) {
    AllDigits(s) && |s| > USDC_DECIMALS && (|s| > USDC_DECIMALS + 1 ==> s[0] != '0')
  }

  lemma {:induction false} NoLeadingZero(n: nat)
    requires n > 0
    ensures ToText(n)[0] != '0'
  {
    if n >= 10 { NoLeadingZero(n / 10); }
  }

  /** Printing a parsed amount gives canonical text for the same amount. */
  lemma PrintedParseIsCanonical(amount: string, value: int)
    requires ParseUsdcAmount(amount) == Ok(value)
    ensures Canonical(FormatUnits(value, USDC_DECIMALS))
    ensures ParseUsdcAmount(FormatUnits(value, USDC_DECIMALS)) == Ok(value)
  {
    RoundTrip(value);
    NoLeadingZero(value);
    PrintedShape(value);
    assert CanonicalDigits(PaddedDigits(value, USDC_DECIMALS));
  }

  /** Canonical text is the only canonical text of its amount: printing restores it. */
  lemma CanonicalIsRestored(amount: string, value: int)
    requires Canonical(amount) && ParseUsdcAmount(amount) == Ok(value)
    ensures FormatUnits(value, USDC_DECIMALS) == amount
  {
    var digits :| CanonicalDigits(digits) && amount == PutPoint(digits, USDC_DECIMALS);
    TrimKeepsPointed(digits);
    ParsesPointed(digits);
    CanonicalDigitsAreReprinted(digits);
    PrintedShape(value);
  }

  lemma CanonicalDigitsAreReprinted(digits: string)
    requires CanonicalDigits(digits)
    ensures PaddedDigits(ValueOf(digits), USDC_DECIMALS) == digits
  {
    TextOfValue(digits);
  }

  /** Whatever the integer and the number of decimals, the text is a minus sign for a negative one, its
      digits with at least one before the point, and so many after it. */
  lemma PrintsTheInteger(value: int, decimals: nat) returns (whole: string, fraction: string)
    ensures FormatUnits(value, decimals) == (if value < 0 then "-" else "") + whole + "." + fraction
    ensures whole != "" && |fraction| == decimals && AllDigits(whole) && AllDigits(fraction)
    ensures ValueOf(whole) * Pow10(decimals) + ValueOf(fraction) == if value < 0 then -value else value
  {
    var digits := PaddedDigits(value, decimals);
    whole, fraction := digits[..|digits| - decimals], digits[|digits| - decimals..];
    PaddedDigitsValue(value, decimals);
    ValueOfConcat(whole, fraction);
    assert digits == whole + fraction;
  }

  /** No two integers, of either sign, print alike. */
  lemma FormatIsInjective(a: int, b: int, decimals: nat)
    requires FormatUnits(a, decimals) == FormatUnits(b, decimals)
    ensures a == b
  {
    SignIsFirst(a, decimals);
    SignIsFirst(b, decimals);
    PaddedDigitsValue(a, decimals);
    PaddedDigitsValue(b, decimals);
    SamePointedDigits(PaddedDigits(a, decimals), PaddedDigits(b, decimals), decimals);
  }

  lemma SignIsFirst(value: int, decimals: nat)
    ensures var text, pointed := FormatUnits(value, decimals), PutPoint(PaddedDigits(value, decimals), decimals);
            && text != "" && (value < 0 <==> text[0] == '-')
            && pointed == if value < 0 then text[1..] else text
  {
    PointIsPut(PaddedDigits(value, decimals), decimals);
  }

  lemma SamePointedDigits(s: string, t: string, decimals: nat)
    requires |s| > decimals && |t| > decimals && PutPoint(s, decimals) == PutPoint(t, decimals)
    ensures s == t
  {
    PointIsPut(s, decimals);
    PointIsPut(t, decimals);
  }
}
