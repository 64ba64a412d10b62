/** Numbers and dates as text: fmt and strconv on decimal integers and on decimals with two
    places, time.Format and time.Parse with the layout 2006-01-02. */
module TextCodec {
  import opened Options

  // ---- Digits ----

  predicate IsDigit(c: char) {
    '0' <= c <= '9'
  }

  predicate AllDigits(s: string) {
    forall i :: 0 <= i < |s| ==> IsDigit(s[i])
  }

  function Digit(n: nat): (c: char)
    requires n < 10
    ensures IsDigit(c) && DigitValue(c) == n
  {
    '0' + n as char
  }

  function DigitValue(c: char): (n: nat)
    requires IsDigit(c)
    ensures n < 10
  {
    (c as int - '0' as int) as nat
  }

  function NatValue(s: string): nat
    requires AllDigits(s)
  {
    if s == [] then 0 else NatValue(s[..|s| - 1]) * 10 + DigitValue(s[|s| - 1])
  }

  function NatText(n: nat): (s: string)
    ensures s != [] && AllDigits(s)
  {
    if n < 10 then [Digit(n)] else NatText(n / 10) + [Digit(n % 10)]
  }

  lemma {:induction false} NatRoundTrip(n: nat)
    ensures NatValue(NatText(n)) == n
  {
    var s := NatText(n);
    if n < 10 {
      assert s[..0] == [];
      assert NatValue([]) == 0;
    } else {
      NatRoundTrip(n / 10);
      assert s[..|s| - 1] == NatText(n / 10);
    }
  }

  function Pow10(w: nat): (p: nat)
    ensures p > 0
  {
    if w == 0 then 1 else 10 * Pow10(w - 1)
  }

  /** A number with leading zeros to a fixed width. */
  function PadText(n: nat, w: nat): (s: string)
    requires n < Pow10(w)
    ensures |s| == w && AllDigits(s)
  {
    if w == 0 then [] else PadText(n / 10, w - 1) + [Digit(n % 10)]
  }

  lemma {:induction false} PadRoundTrip(n: nat, w: nat)
    requires n < Pow10(w)
    ensures NatValue(PadText(n, w)) == n
  {
    if w > 0 {
      PadRoundTrip(n / 10, w - 1);
      var s := PadText(n, w);
      assert s[..|s| - 1] == PadText(n / 10, w - 1);
    }
  }

  // ---- Integers ----

  const MIN_INT := -0x8000_0000_0000_0000
  const MAX_INT := 0x7fff_ffff_ffff_ffff

  type Int64 = n: int | MIN_INT <= n <= MAX_INT

  function IntText(n: int): (s: string)
    ensures s != []
  {
    if n < 0 then "-" + NatText(-n) else NatText(n)
  }

  /** strconv.Atoi. */
  function Atoi(s: string): Option<Int64> {
    var signed := s != [] && s[0] in {'-', '+'};
    var digits := if signed then s[1..] else s;
    if digits == [] || !AllDigits(digits) then None
    else
      var value: int := NatValue(digits);
      var n := if signed && s[0] == '-' then 0 - value else value;
      if MIN_INT <= n <= MAX_INT then Some(n) else None
  }

  lemma DigitsAreUnsigned(s: string)
    requires s != [] && AllDigits(s)
    ensures s[0] !in {'-', '+'}
  {
  }

  lemma IntRoundTrip(n: int)
    requires MIN_INT <= n <= MAX_INT
    ensures Atoi(IntText(n)) == Some(n)
  {
    hide NatText, NatValue;
    if n < 0 {
      NatRoundTrip(-n);
      assert IntText(n)[1..] == NatText(-n);
    } else {
      NatRoundTrip(n);
      DigitsAreUnsigned(NatText(n));
    }
  }

  // ---- Decimals with two places ----

  /** The nearest whole number of hundredths, ties to even. */
  function Hundredths(c: real): (h: nat)
    requires c >= 0.0
    ensures -0.5 <= c * 100.0 - h as real <= 0.5
  {
    var x := c * 100.0;
    var f := x.Floor;
    if x - f as real < 0.5 || (x - f as real == 0.5 && f % 2 == 0) then f else f + 1
  }

  /** It is the nearest one, and of two equally near the even one. */
  lemma HundredthsIff(c: real, h: nat)
    requires c >= 0.0
    ensures Hundredths(c) == h <==>
              var d := c * 100.0 - h as real; -0.5 <= d <= 0.5 && (d == 0.5 || d == -0.5 ==> h % 2 == 0)
  {
    var x := c * 100.0;
    var f := x.Floor;
    assert f as real <= x < f as real + 1.0;
    var d := x - h as real;
    if -0.5 <= d <= 0.5 { assert h == f || h == f + 1; }
  }

  function RoundHundredths(c: real): (r: real)
    ensures -0.005 <= c - r <= 0.005
  {
    if c >= 0.0 then Hundredths(c) as real / 100.0 else -(Hundredths(-c) as real / 100.0)
  }

  /** A rounded confidence is not rounded again. */
  lemma RoundingIsIdempotent(c: real)
    ensures RoundHundredths(RoundHundredths(c)) == RoundHundredths(c)
  {
    var h := if c >= 0.0 then Hundredths(c) else Hundredths(-c);
    WholeHundredths(h);
  }

  lemma WholeHundredths(h: nat)
    ensures Hundredths(h as real / 100.0) == h
  {
    var c := h as real / 100.0;
    assert c * 100.0 == h as real;
  }

  function HundredthsText(h: nat): (s: string)
    ensures s != []
  {
    NatText(h / 100) + "." + PadText(h % 100, 2)
  }

  /** %.2f. */
  function RealText(c: real): (s: string)
    ensures s != []
  {
    if c >= 0.0 then HundredthsText(Hundredths(c)) else "-" + HundredthsText(Hundredths(-c))
  }

  function PointAt(s: string): (i: nat)
    ensures i <= |s| && (i < |s| ==> s[i] == '.') && forall j :: 0 <= j < i ==> s[j] != '.'
  {
    if s == [] || s[0] == '.' then 0 else 1 + PointAt(s[1..])
  }

  /** The value of the digits behind a point. */
  function Fraction(part: string): real
    requires AllDigits(part)
  {
    NatValue(part) as real / Pow10(|part|) as real
  }

  /** The value of a plain decimal, with or without a point. */
  function DecimalValue(s: string): Option<real> {
    var i := PointAt(s);
    var whole, part := s[..i], if i < |s| then s[i + 1..] else [];
    if whole + part == [] || !AllDigits(whole) || !AllDigits(part) then None
    else Some(NatValue(whole) as real + Fraction(part))
  }

  /** strconv.ParseFloat on plain decimals. */
  function ParseFloat(s: string): Option<real> {
    if s != [] && s[0] in {'-', '+'} then
      var r := DecimalValue(s[1..]);
      if r.Some? && s[0] == '-' then Some(-r.value) else r
    else DecimalValue(s)
  }

  lemma HundredthsRoundTrip(h: nat)
    ensures DecimalValue(HundredthsText(h)) == Some(h as real / 100.0)
  {
    TwoDigits();
    NatRoundTrip(h / 100);
    TwoPlaces(h % 100);
    PointedValue(NatText(h / 100), PadText(h % 100, 2));
    WholeAndPart(h);
    hide NatText, PadText, NatValue, DecimalValue, Pow10, Fraction;
  }

  lemma TwoDigits()
    ensures Pow10(2) == 100
  {
    assert Pow10(1) == 10;
  }

  lemma TwoPlaces(n: nat)
    requires n < 100
    ensures Pow10(2) == 100 && Fraction(PadText(n, 2)) == n as real / 100.0
  {
    TwoDigits();
    PadRoundTrip(n, 2);
    hide PadText, NatValue, Pow10, AllDigits, Fraction;
    FractionOf(PadText(n, 2), n, 100);
  }

  lemma FractionOf(part: string, n: nat, d: nat)
    requires AllDigits(part) && NatValue(part) == n && Pow10(|part|) == d > 0
    ensures Fraction(part) == n as real / d as real
  {
    hide NatValue, Pow10, AllDigits;
  }

  lemma PointedValue(whole: string, part: string)
    requires whole != [] && AllDigits(whole) && AllDigits(part)
    ensures DecimalValue(whole + "." + part) == Some(NatValue(whole) as real + Fraction(part))
  {
    hide NatValue, Fraction;
    var s := whole + "." + part;
    assert s[|whole|] == '.' && s[..|whole|] == whole && s[|whole| + 1..] == part;
    assert PointAt(s) == |whole| by {
      assert forall j :: 0 <= j < |whole| ==> s[j] == whole[j];
    }
  }

  lemma WholeAndPart(h: nat)
    ensures (h / 100) as real + (h % 100) as real / 100.0 == h as real / 100.0
  {
    assert h == h / 100 * 100 + h % 100;
  }

  lemma RealRoundTrip(c: real)
    ensures ParseFloat(RealText(c)) == Some(RoundHundredths(c))
  {
    hide HundredthsText, DecimalValue, Hundredths;
    var h := if c >= 0.0 then Hundredths(c) else Hundredths(-c);
    HundredthsRoundTrip(h);
    HundredthsStartWithDigit(h);
    assert ("-" + HundredthsText(h))[1..] == HundredthsText(h);
  }

  lemma HundredthsStartWithDigit(h: nat)
    ensures IsDigit(HundredthsText(h)[0])
  {
  }

  // ---- Dates ----

  datatype AnyDate = Date(year: nat, month: nat, day: nat)

  predicate IsLeap(year: nat) {
    year % 4 == 0 && (year % 100 != 0 || year % 400 == 0)
  }

  function DaysIn(year: nat, month: nat): nat {
    if month == 2 then if IsLeap(year) then 29 else 28
    else if month in {4, 6, 9, 11} then 30 else 31
  }

  predicate IsDate(d: AnyDate) {
    d.year <= 9999 && 1 <= d.month <= 12 && 1 <= d.day <= DaysIn(d.year, d.month)
  }

  type CalendarDate = d: AnyDate | IsDate(d) witness Date(1, 1, 1)

  lemma Widths()
    ensures Pow10(2) == 100 && Pow10(4) == 10000
  {
    assert Pow10(1) == 10 && Pow10(3) == 1000;
  }

  /** time.Format. */
  function DateText(d: CalendarDate): (s: string)
    ensures |s| == 10 && IsDigit(s[0])
  {
    Widths();
    PadText(d.year, 4) + "-" + PadText(d.month, 2) + "-" + PadText(d.day, 2)
  }

  /** time.Parse. */
  function ParseDate(s: string): Option<CalendarDate> {
    if |s| != 10 || s[4] != '-' || s[7] != '-' then None
    else if !AllDigits(s[..4]) || !AllDigits(s[5..7]) || !AllDigits(s[8..]) then None
    else
      var d := Date(NatValue(s[..4]), NatValue(s[5..7]), NatValue(s[8..]));
      if IsDate(d) then Some(d) else None
  }

  lemma DateRoundTrip(d: CalendarDate)
    ensures ParseDate(DateText(d)) == Some(d)
  {
    Widths();
    var y, m, day := PadText(d.year, 4), PadText(d.month, 2), PadText(d.day, 2);
    var s := DateText(d);
    assert s[..4] == y && s[5..7] == m && s[8..] == day;
    PadRoundTrip(d.year, 4);
    PadRoundTrip(d.month, 2);
    PadRoundTrip(d.day, 2);
  }

  /** Digits are the padded text of their value. */
  lemma {:induction false} PadOfValue(s: string)
    requires AllDigits(s)
    ensures NatValue(s) < Pow10(|s|) && PadText(NatValue(s), |s|) == s
  {
    if s != [] {
      var n := |s| - 1;
      PadOfValue(s[..n]);
      ValueStep(s);
      PadStep(NatValue(s[..n]), DigitValue(s[n]), n);
      DigitOfValue(s[n]);
      hide NatValue, PadText, Pow10, Digit, DigitValue, AllDigits;
      assert s == s[..n] + [s[n]];
    }
  }

  lemma ValueStep(s: string)
    requires AllDigits(s) && s != []
    ensures NatValue(s) == NatValue(s[..|s| - 1]) * 10 + DigitValue(s[|s| - 1])
  {
  }

  lemma PadStep(tens: nat, ones: nat, w: nat)
    requires ones < 10 && tens < Pow10(w)
    ensures tens * 10 + ones < Pow10(w + 1)
    ensures PadText(tens * 10 + ones, w + 1) == PadText(tens, w) + [Digit(ones)]
  {
    ValueSplits(tens, ones);
  }

  lemma DigitOfValue(c: char)
    requires IsDigit(c)
    ensures Digit(DigitValue(c)) == c
  {
  }

  lemma ValueSplits(tens: nat, ones: nat)
    requires ones < 10
    ensures (tens * 10 + ones) / 10 == tens && (tens * 10 + ones) % 10 == ones
  {
  }

  /** A text is read as a date exactly when it is what that date is printed as. */
  lemma DateIff(s: string, d: CalendarDate)
    ensures ParseDate(s) == Some(d) <==> s == DateText(d)
  {
    DateRoundTrip(d);
    if ParseDate(s) == Some(d) {
      Widths();
      PadOfValue(s[..4]);
      PadOfValue(s[5..7]);
      PadOfValue(s[8..]);
      hide PadText, NatValue, AllDigits, IsDate;
      assert s == s[..4] + "-" + s[5..7] + "-" + s[8..];
    }
  }

  /** Dates are those of the Gregorian calendar: a year has 366 days when it is divisible by
      four but not by a hundred, or by four hundred, and 365 otherwise. */
  lemma YearIsGregorian(year: nat)
    ensures DaysIn(year, 1) + DaysIn(year, 2) + DaysIn(year, 3) + DaysIn(year, 4) + DaysIn(year, 5) + DaysIn(year, 6)
            + DaysIn(year, 7) + DaysIn(year, 8) + DaysIn(year, 9) + DaysIn(year, 10) + DaysIn(year, 11) + DaysIn(year, 12)
            == if (year % 4 == 0 && year % 100 != 0) || year % 400 == 0 then 366 else 365
  {
  }
}
