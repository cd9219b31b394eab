/** `parse_excel_date` (fabric-lineage-tracker-fixed.py:14-26): a cell of the
    `Date` column turned into an ISO 8601 calendar date, complete
    representation in extended format (YYYY-MM-DD, section 4.1.2.2 of
    ISO 8601:2004). Integers are Excel serial day numbers counted from
    1899-12-30; strings are read up to their first `T`; anything that does
    not make a date is returned as `str(value)`.

    Dates are Python's proleptic Gregorian calendar: years 1 to 9999, and
    the ordinal of a date is its day number counted from 0001-01-01 = 1. */
module ExcelDate {
  import opened Text
  import opened Records

  datatype Date = Date(year: int, month: int, day: int)

  predicate IsLeap(y: int) {
    y % 4 == 0 && (y % 100 != 0 || y % 400 == 0)
  }

  function DaysInYear(y: int): int {
    if IsLeap(y) then 366 else 365
  }

  function DaysInMonth(y: int, m: int): int
    requires 1 <= m <= 12
  {
    if m == 2 then (if IsLeap(y) then 29 else 28)
    else if m == 4 || m == 6 || m == 9 || m == 11 then 30
    else 31
  }

  /** A date `datetime` can represent. */
  predicate ValidDate(d: Date) {
    1 <= d.year <= 9999 && 1 <= d.month <= 12 && 1 <= d.day <= DaysInMonth(d.year, d.month)
  }

  /** Days before the first of January of year `y`. */
  function DaysBeforeYear(y: int): int
    requires y >= 1
  {
    var p := y - 1;
    365 * p + p / 4 - p / 100 + p / 400
  }

  /** Each year adds its own length. */
  lemma DaysBeforeNextYear(y: int)
    requires y >= 1
    ensures DaysBeforeYear(y + 1) == DaysBeforeYear(y) + DaysInYear(y)
  {
    assert y / 4 - (y - 1) / 4 == if y % 4 == 0 then 1 else 0;
    assert y / 100 - (y - 1) / 100 == if y % 100 == 0 then 1 else 0;
    assert y / 400 - (y - 1) / 400 == if y % 400 == 0 then 1 else 0;
  }

  /** Later years start later. */
  lemma {:induction false} DaysBeforeYearIncreasing(a: int, b: int)
    requires 1 <= a < b
    ensures DaysBeforeYear(a + 1) <= DaysBeforeYear(b)
    decreases b - a
  {
    if b > a + 1 {
      DaysBeforeYearIncreasing(a, b - 1);
      DaysBeforeNextYear(b - 1);
    }
  }

  /** Days of a common year before the first of each month; the last
      entry is the whole year. */
  const CumulativeDays: seq<int> := [0, 31, 59, 90, 120, 151, 181, 212, 243, 273, 304, 334, 365]

  /** Days of year `y` before the first of month `m` (13 stands for the
      end of the year): the common-year table plus the leap day once
      February is over. */
  function DaysBeforeMonth(y: int, m: int): int
    requires 1 <= m <= 13
  {
    CumulativeDays[m - 1] + if m > 2 && IsLeap(y) then 1 else 0
  }

  /** Each month adds its own length, and the twelve fill the year. */
  lemma DaysBeforeNextMonth(y: int, m: int)
    requires 1 <= m <= 12
    ensures DaysBeforeMonth(y, m + 1) == DaysBeforeMonth(y, m) + DaysInMonth(y, m)
    ensures DaysBeforeMonth(y, 13) == DaysInYear(y)
  {
  }

  /** Later months start later. */
  lemma DaysBeforeMonthIncreasing(y: int, a: int, b: int)
    requires 1 <= a < b <= 13
    ensures DaysBeforeMonth(y, a + 1) <= DaysBeforeMonth(y, b)
  {
  }

  /** `date.toordinal()` */
  function ToOrdinal(d: Date): int
    requires ValidDate(d)
  {
    DaysBeforeYear(d.year) + DaysBeforeMonth(d.year, d.month) + d.day
  }

  /** The ordinal of 9999-12-31, the last date `datetime` represents. */
  const MaxOrdinal := 3652059

  /** The ordinal of 1899-12-30, the day Excel serial 0 stands for. */
  const EpochOrdinal := 693594

  lemma LastOrdinal()
    ensures ToOrdinal(Date(9999, 12, 31)) == MaxOrdinal
    ensures DaysBeforeYear(10000) == MaxOrdinal
  {
    assert DaysBeforeYear(9999) == 3651694;
    assert DaysBeforeMonth(9999, 12) == 334;
  }

  lemma EpochDate()
    ensures ToOrdinal(Date(1899, 12, 30)) == EpochOrdinal
  {
    assert DaysBeforeYear(1899) == 693230;
    assert DaysBeforeMonth(1899, 12) == 334;
  }

  /** A valid date's ordinal lies inside its own year. */
  lemma OrdinalInYear(d: Date)
    requires ValidDate(d)
    ensures DaysBeforeYear(d.year) < ToOrdinal(d) <= DaysBeforeYear(d.year + 1)
    ensures DaysBeforeMonth(d.year, d.month) < ToOrdinal(d) - DaysBeforeYear(d.year)
              <= DaysBeforeMonth(d.year, d.month + 1)
  {
    DaysBeforeNextYear(d.year);
    DaysBeforeNextMonth(d.year, d.month);
    if d.month < 12 {
      DaysBeforeMonthIncreasing(d.year, d.month, 13);
    }
  }

  /** The year holding ordinal `n`, searched from year `y` on. */
  function YearOf(n: int, y: int): (r: int)
    requires 1 <= y <= 9999 && DaysBeforeYear(y) < n <= MaxOrdinal
    ensures y <= r <= 9999 && DaysBeforeYear(r) < n <= DaysBeforeYear(r + 1)
    decreases 9999 - y
  {
    DaysBeforeNextYear(y);
    if n <= DaysBeforeYear(y + 1) then y else YearOf(n, y + 1)
  }

  /** The month holding day `r` of year `y`, searched from month `m` on. */
  function MonthOf(y: int, r: int, m: int): (res: int)
    requires 1 <= m <= 12 && DaysBeforeMonth(y, m) < r <= DaysInYear(y)
    ensures m <= res <= 12 && DaysBeforeMonth(y, res) < r <= DaysBeforeMonth(y, res + 1)
    decreases 12 - m
  {
    DaysBeforeNextMonth(y, m);
    if r <= DaysBeforeMonth(y, m + 1) then m else MonthOf(y, r, m + 1)
  }

  /** `date.fromordinal(n)`: the valid date whose ordinal is `n`. */
  function FromOrdinal(n: int): (d: Date)
    requires 1 <= n <= MaxOrdinal
    ensures ValidDate(d) && ToOrdinal(d) == n
  {
    var y := YearOf(n, 1);
    DaysBeforeNextYear(y);
    var r := n - DaysBeforeYear(y);
    var m := MonthOf(y, r, 1);
    Date(y, m, r - DaysBeforeMonth(y, m))
  }

  /** Distinct valid dates have distinct ordinals. */
  lemma ToOrdinalInjective(a: Date, b: Date)
    requires ValidDate(a) && ValidDate(b) && ToOrdinal(a) == ToOrdinal(b)
    ensures a == b
  {
    OrdinalInYear(a);
    OrdinalInYear(b);
    if a.year < b.year {
      DaysBeforeYearIncreasing(a.year, b.year);
    } else if b.year < a.year {
      DaysBeforeYearIncreasing(b.year, a.year);
    }
    if a.month < b.month {
      DaysBeforeMonthIncreasing(a.year, a.month, b.month);
    } else if b.month < a.month {
      DaysBeforeMonthIncreasing(a.year, b.month, a.month);
    }
  }

  /** `fromordinal` undoes `toordinal`. */
  lemma FromToOrdinal(d: Date)
    requires ValidDate(d)
    ensures 1 <= ToOrdinal(d) <= MaxOrdinal
    ensures FromOrdinal(ToOrdinal(d)) == d
  {
    LastOrdinal();
    DaysBeforeYearIncreasing(1, d.year + 1);
    OrdinalInYear(d);
    if d.year < 9999 {
      DaysBeforeYearIncreasing(d.year + 1, 10000);
    }
    ToOrdinalInjective(FromOrdinal(ToOrdinal(d)), d);
  }

  // ---------------------------------------------------------------------
  // YYYY-MM-DD

  function Pow10(w: nat): (p: nat)
    ensures p >= 1
  {
    if w == 0 then 1 else 10 * Pow10(w - 1)
  }

  predicate AllDigits(s: string) {
    forall i :: 0 <= i < |s| ==> IsDigit(s[i])
  }

  /** `n` written with exactly `w` digits, zero-padded on the left. */
  function Digits(n: nat, w: nat): (s: string)
    ensures |s| == w && AllDigits(s)
  {
    if w == 0 then [] else Digits(n / 10, w - 1) + [DigitChar(n % 10)]
  }

  /** Padding to `w` digits loses nothing of a number below `10^w`. */
  lemma {:induction false} DigitsRoundTrip(n: nat, w: nat)
    requires n < Pow10(w)
    ensures DecimalToNat(Digits(n, w)) == n
  {
    if w > 0 {
      assert n == 10 * (n / 10) + n % 10;
      assert Pow10(w) == 10 * Pow10(w - 1);
      DigitsRoundTrip(n / 10, w - 1);
      var s := Digits(n, w);
      assert s[..|s| - 1] == Digits(n / 10, w - 1);
    }
  }

  /** A string of digits is its own value padded to its own width. */
  lemma {:induction false} DecimalDigits(s: string)
    requires AllDigits(s)
    ensures Digits(DecimalToNat(s), |s|) == s
  {
    if s != [] {
      var init := s[..|s| - 1];
      DecimalDigits(init);
      assert s == init + [s[|s| - 1]];
    }
  }

  /** `strftime('%Y-%m-%d')` */
  function Format(d: Date): (s: string)
    requires ValidDate(d)
    ensures |s| == 10 && s[4] == '-' && s[7] == '-'
    ensures AllDigits(s[..4]) && AllDigits(s[5..7]) && AllDigits(s[8..])
  {
    Digits(d.year, 4) + "-" + Digits(d.month, 2) + "-" + Digits(d.day, 2)
  }

  /** `datetime.fromisoformat` on a plain calendar date: four, two and two
      digits separated by hyphens, naming a valid date. */
  function ParseIso(s: string): (r: Option<Date>)
    ensures r.Some? ==> ValidDate(r.value)
    ensures r.Some? ==> |s| == 10
  {
    if |s| == 10 && s[4] == '-' && s[7] == '-' && AllDigits(s[..4]) && AllDigits(s[5..7]) && AllDigits(s[8..]) then
      var d := Date(DecimalToNat(s[..4]), DecimalToNat(s[5..7]), DecimalToNat(s[8..]));
      if ValidDate(d) then Some(d) else None
    else None
  }

  /** Every formatted date parses back to itself. */
  lemma FormatParse(d: Date)
    requires ValidDate(d)
    ensures ParseIso(Format(d)) == Some(d)
  {
    var s := Format(d);
    assert s[..4] == Digits(d.year, 4);
    assert s[5..7] == Digits(d.month, 2);
    assert s[8..] == Digits(d.day, 2);
    DigitsRoundTrip(d.year, 4);
    DigitsRoundTrip(d.month, 2);
    DigitsRoundTrip(d.day, 2);
  }

  /** A string that parses is already in the canonical form. */
  lemma ParseFormat(s: string)
    requires ParseIso(s).Some?
    ensures Format(ParseIso(s).value) == s
  {
    DecimalDigits(s[..4]);
    DecimalDigits(s[5..7]);
    DecimalDigits(s[8..]);
    assert s == s[..4] + "-" + s[5..7] + "-" + s[8..];
  }

  /** `s.split('T')[0]`: everything before the first `T`. */
  function BeforeT(s: string): (r: string)
    ensures |r| <= |s| && r == s[..|r|]
    ensures 'T' !in r
    ensures |r| < |s| ==> s[|r|] == 'T'
  {
    if s == [] then []
    else if s[0] == 'T' then []
    else [s[0]] + BeforeT(s[1..])
  }

  /** A string without `T` is kept whole. */
  lemma NoTKept(s: string)
    requires 'T' !in s
    ensures BeforeT(s) == s
  {
  }

  /** Serials whose day lies inside the years 1 to 9999. */
  predicate SerialInRange(n: int) {
    1 <= EpochOrdinal + n <= MaxOrdinal
  }

  /** `parse_excel_date(date_value)`. */
  function ParseExcelDate(v: Value): (r: string)
    ensures v == Null || v == Str("") ==> r == ""
    ensures v.Str? && v.s != "" ==>
              r == (if ParseIso(BeforeT(v.s)).Some? then BeforeT(v.s) else v.s)
    ensures v.Int? && !SerialInRange(v.i) ==> r == IntToDecimal(v.i)
    ensures v.Int? && SerialInRange(v.i) ==>
              ParseIso(r).Some? && ToOrdinal(ParseIso(r).value) - ToOrdinal(Date(1899, 12, 30)) == v.i
  {
    match v
    case Null => ""
    case Str(s) =>
      if s == "" then ""
      else
        var p := ParseIso(BeforeT(s));
        if p.Some? then
          ParseFormat(BeforeT(s));
          Format(p.value)
        else s
    case Int(n) =>
      if SerialInRange(n) then
        var d := FromOrdinal(EpochOrdinal + n);
        FormatParse(d);
        Format(d)
      else IntToDecimal(n)
  }

  /** Formatted dates hold only digits and hyphens. */
  lemma FormatChars(d: Date)
    requires ValidDate(d)
    ensures forall i :: 0 <= i < |Format(d)| ==> Format(d)[i] == '-' || IsDigit(Format(d)[i])
  {
    var r := Format(d);
    assert r == r[..4] + "-" + r[5..7] + "-" + r[8..];
  }

  /** A normalised serial contains no `T`, and one out of range does not
      read as a date. */
  lemma NormalisedHasNoT(n: int)
    ensures 'T' !in ParseExcelDate(Int(n))
    ensures !SerialInRange(n) ==> ParseIso(ParseExcelDate(Int(n))).None?
  {
    if SerialInRange(n) {
      FormatChars(FromOrdinal(EpochOrdinal + n));
    } else {
      var r := IntToDecimal(n);
      assert forall i :: 0 <= i < |r| ==> r[i] == '-' || IsDigit(r[i]);
      if |r| == 10 {
        assert IsDigit(r[4]);
      }
    }
  }

  /** Normalising a normalised date changes nothing. */
  lemma ParseExcelDateIdempotent(v: Value)
    ensures ParseExcelDate(Str(ParseExcelDate(v))) == ParseExcelDate(v)
  {
    match v
    case Null =>
    case Str(s) =>
      if s != "" && ParseIso(BeforeT(s)).Some? {
        NoTKept(BeforeT(s));
      }
    case Int(n) =>
      NormalisedHasNoT(n);
      NoTKept(ParseExcelDate(v));
      if SerialInRange(n) {
        FormatParse(FromOrdinal(EpochOrdinal + n));
      }
  }

  /** An in-range serial is the date that many days after the base date. */
  lemma SerialDate(n: int)
    requires SerialInRange(n)
    ensures ParseExcelDate(Int(n)) == Format(FromOrdinal(EpochOrdinal + n))
  {
  }

  /** Serial 0 is the base date itself. */
  lemma SerialZero()
    ensures ParseExcelDate(Int(0)) == Format(Date(1899, 12, 30))
  {
    var d := Date(1899, 12, 30);
    EpochDate();
    FromToOrdinal(d);
    SerialDate(0);
  }

  /** Serial 45000 is 2023-03-15. */
  lemma SerialExample()
    ensures ParseExcelDate(Int(45000)) == Format(Date(2023, 3, 15))
  {
    var d := Date(2023, 3, 15);
    assert ToOrdinal(d) == EpochOrdinal + 45000 by {
      assert DaysBeforeYear(2023) == 738520;
    }
    FromToOrdinal(d);
    SerialDate(45000);
  }
}
