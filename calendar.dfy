/** Calendar dates as day ordinals.

    The scrapers turn `YYYY-MM-DD` text into `datetime.date` values with
    `strptime`, step them with `timedelta(days=...)` and turn them back with
    `strftime`. Here a date is its proleptic Gregorian ordinal (1 is
    0001-01-01, as `date.toordinal`), and `ParseDate`/`FormatDate` are the two
    directions of the bijection between ordinals of the years 1..9999 and
    canonical `YYYY-MM-DD` text. Day arithmetic is integer arithmetic. */
module Calendar {
  import opened Wrappers
  import opened Text

  const MaxYear := 9999

  /** `date(9999, 12, 31).toordinal()`. */
  const MaxOrdinal := 3652059

  predicate IsLeap(y: int) {
    y % 4 == 0 && (y % 100 != 0 || y % 400 == 0)
  }

  function DaysInYear(y: int): nat {
    if IsLeap(y) then 366 else 365
  }

  function DaysInMonth(y: int, m: int): (n: nat)
    requires 1 <= m <= 12
    ensures 28 <= n <= 31
  {
    if m == 2 then (if IsLeap(y) then 29 else 28)
    else if m == 4 || m == 6 || m == 9 || m == 11 then 30
    else 31
  }

  /** Days in the years before `y`: the lengths of the years `1..y-1`. */
  function DaysBeforeYear(y: int): int
    requires y >= 1
    decreases y
  {
    if y == 1 then 0 else DaysBeforeYear(y - 1) + DaysInYear(y - 1)
  }

  /** Days in the months of year `y` before month `m` (`_days_before_month`). */
  function DaysBeforeMonth(y: int, m: int): (n: nat)
    requires 1 <= m <= 12
  {
    [0, 31, 59, 90, 120, 151, 181, 212, 243, 273, 304, 334][m - 1]
      + (if m > 2 && IsLeap(y) then 1 else 0)
  }

  datatype Civil = Civil(year: int, month: int, day: int)

  predicate ValidCivil(c: Civil) {
    1 <= c.year <= MaxYear && 1 <= c.month <= 12 && 1 <= c.day <= DaysInMonth(c.year, c.month)
  }

  function ToOrdinal(c: Civil): (n: int)
    requires 1 <= c.year && 1 <= c.month <= 12
  {
    DaysBeforeYear(c.year) + DaysBeforeMonth(c.year, c.month) + c.day
  }

  /** The date `r - 1` days after the first of January of year `y`. */
  function CivilFrom(y: int, r: int): Civil
    requires y >= 1 && r >= 1
    decreases r
  {
    if r <= DaysInYear(y) then MonthFrom(y, 1, r)
    else CivilFrom(y + 1, r - DaysInYear(y))
  }

  /** The date `r - 1` days after the first of month `m` of year `y`. */
  function MonthFrom(y: int, m: int, r: int): Civil
    requires 1 <= m <= 12 && 1 <= r <= DaysInYear(y) - DaysBeforeMonth(y, m)
    decreases 12 - m
  {
    if r <= DaysInMonth(y, m) || m == 12 then Civil(y, m, r)
    else MonthFrom(y, m + 1, r - DaysInMonth(y, m))
  }

  /** `date.fromordinal(n)`. */
  function FromOrdinal(n: int): Civil
    requires n >= 1
  {
    CivilFrom(1, n)
  }

  /** The year lengths add up to Python's closed form `_days_before_year`. */
  lemma {:induction false} DaysBeforeYearFormula(y: int)
    requires y >= 1
    ensures DaysBeforeYear(y) == 365 * (y - 1) + (y - 1) / 4 - (y - 1) / 100 + (y - 1) / 400
    decreases y
  {
    if y > 1 {
      DaysBeforeYearFormula(y - 1);
      ClosedFormStep(y - 1);
    }
  }

  lemma ClosedFormStep(y: int)
    requires y >= 1
    ensures 365 * y + y / 4 - y / 100 + y / 400
            == 365 * (y - 1) + (y - 1) / 4 - (y - 1) / 100 + (y - 1) / 400 + DaysInYear(y)
  {
    var p := y - 1;
    assert 365 * y == 365 * p + 365;
    DivStep4(y);
    DivStep100(y);
    DivStep400(y);
    LeapDivisors(y);
  }

  /** A multiple of 400 is a multiple of 100, and a multiple of 100 one of 4. */
  lemma LeapDivisors(y: int)
    ensures y % 400 == 0 ==> y % 100 == 0
    ensures y % 100 == 0 ==> y % 4 == 0
  {
    if y % 400 == 0 {
      MultipleOf400(y);
    }
    if y % 100 == 0 {
      MultipleOf100(y);
    }
  }

  lemma MultipleOf400(y: int)
    requires y % 400 == 0
    ensures y % 100 == 0
  {
    var q, r := y / 400, y / 100;
    assert y == 400 * q;
    assert y == 100 * r + y % 100;
    assert 100 * (4 * q - r) == y % 100;
  }

  lemma MultipleOf100(y: int)
    requires y % 100 == 0
    ensures y % 4 == 0
  {
    var q, r := y / 100, y / 4;
    assert y == 100 * q;
    assert y == 4 * r + y % 4;
    assert 4 * (25 * q - r) == y % 4;
  }

  lemma DivStep4(y: int)
    requires y >= 1
    ensures y / 4 == (y - 1) / 4 + (if y % 4 == 0 then 1 else 0)
  {
  }

  lemma DivStep100(y: int)
    requires y >= 1
    ensures y / 100 == (y - 1) / 100 + (if y % 100 == 0 then 1 else 0)
  {
  }

  lemma DivStep400(y: int)
    requires y >= 1
    ensures y / 400 == (y - 1) / 400 + (if y % 400 == 0 then 1 else 0)
  {
  }

  lemma DaysBeforeYearMonotone(a: int, b: int)
    requires 1 <= a <= b
    ensures DaysBeforeYear(a) + 365 * (b - a) <= DaysBeforeYear(b)
    decreases b - a
  {
    if a < b {
      DaysBeforeYearMonotone(a, b - 1);
    }
  }

  lemma DaysBeforeMonthStep(y: int, m: int)
    requires 1 <= m <= 12
    ensures DaysBeforeMonth(y, m) + DaysInMonth(y, m)
            == if m == 12 then DaysInYear(y) else DaysBeforeMonth(y, m + 1)
  {
  }

  lemma {:induction false} MonthFromSpec(y: int, m: int, r: int)
    requires 1 <= m <= 12 && 1 <= r <= DaysInYear(y) - DaysBeforeMonth(y, m)
    ensures var c := MonthFrom(y, m, r);
      c.year == y && m <= c.month <= 12 && 1 <= c.day <= DaysInMonth(y, c.month)
      && DaysBeforeMonth(y, c.month) + c.day == DaysBeforeMonth(y, m) + r
    decreases 12 - m
  {
    DaysBeforeMonthStep(y, m);
    if !(r <= DaysInMonth(y, m) || m == 12) {
      MonthFromSpec(y, m + 1, r - DaysInMonth(y, m));
    }
  }

  lemma {:induction false} CivilFromSpec(y: int, r: int)
    requires y >= 1 && r >= 1
    ensures var c := CivilFrom(y, r);
      y <= c.year && 1 <= c.month <= 12 && 1 <= c.day <= DaysInMonth(c.year, c.month)
      && ToOrdinal(c) == DaysBeforeYear(y) + r
    decreases r
  {
    if r <= DaysInYear(y) {
      assert DaysBeforeMonth(y, 1) == 0;
      MonthFromSpec(y, 1, r);
    } else {
      DaysBeforeYearStep(y);
      assert DaysBeforeYear(y) + r == DaysBeforeYear(y + 1) + (r - DaysInYear(y));
      CivilFromSpec(y + 1, r - DaysInYear(y));
    }
  }

  /** Every ordinal of the supported range names a valid date, and converting
      back gives the same ordinal. */
  lemma FromOrdinalValid(n: int)
    requires 1 <= n <= MaxOrdinal
    ensures ValidCivil(FromOrdinal(n)) && ToOrdinal(FromOrdinal(n)) == n
  {
    var c := FromOrdinal(n);
    CivilFromSpec(1, n);
    if c.year > MaxYear {
      DaysBeforeYearMonotone(MaxYear + 1, c.year);
      DaysBeforeYearFormula(MaxYear + 1);
      assert false;
    }
  }

  lemma {:induction false} MonthFromOf(c: Civil, m: int)
    requires ValidCivil(c) && 1 <= m <= c.month
    ensures DaysBeforeMonth(c.year, c.month) - DaysBeforeMonth(c.year, m) + c.day
            <= DaysInYear(c.year) - DaysBeforeMonth(c.year, m)
    ensures MonthFrom(c.year, m, DaysBeforeMonth(c.year, c.month) - DaysBeforeMonth(c.year, m) + c.day) == c
    decreases c.month - m
  {
    DaysBeforeMonthStep(c.year, m);
    DaysBeforeMonthStep(c.year, c.month);
    if m < c.month {
      MonthFromOf(c, m + 1);
    }
  }

  lemma {:induction false} CivilFromOf(c: Civil, y: int)
    requires ValidCivil(c) && 1 <= y <= c.year
    ensures DaysBeforeYear(c.year) - DaysBeforeYear(y) + DaysBeforeMonth(c.year, c.month) + c.day >= 1
    ensures CivilFrom(y, DaysBeforeYear(c.year) - DaysBeforeYear(y) + DaysBeforeMonth(c.year, c.month) + c.day) == c
    decreases c.year - y
  {
    var inYear := DaysBeforeMonth(c.year, c.month) + c.day;
    var r := DaysBeforeYear(c.year) - DaysBeforeYear(y) + inYear;
    DaysBeforeYearMonotone(y, c.year);
    if y == c.year {
      CivilFromInYear(c);
    } else {
      var rest := DaysBeforeYear(c.year) - DaysBeforeYear(y + 1) + inYear;
      DaysBeforeYearStep(y);
      assert r == rest + DaysInYear(y);
      CivilFromOf(c, y + 1);
      CivilFromSkip(y, rest);
    }
  }

  /** A valid date is found in its own year from its day-of-year. */
  lemma CivilFromInYear(c: Civil)
    requires ValidCivil(c)
    ensures CivilFrom(c.year, DaysBeforeMonth(c.year, c.month) + c.day) == c
  {
    var inYear := DaysBeforeMonth(c.year, c.month) + c.day;
    assert DaysBeforeMonth(c.year, 1) == 0;
    MonthFromOf(c, 1);
    assert inYear <= DaysInYear(c.year);
  }

  lemma DaysBeforeYearStep(y: int)
    requires y >= 1
    ensures DaysBeforeYear(y + 1) == DaysBeforeYear(y) + DaysInYear(y)
  {
  }

  /** Skipping a whole year. */
  lemma CivilFromSkip(y: int, rest: int)
    requires y >= 1 && rest >= 1
    ensures CivilFrom(y, rest + DaysInYear(y)) == CivilFrom(y + 1, rest)
  {
  }

  /** Every valid date has an ordinal in range, and that ordinal converts back
      to the same date. */
  lemma ToOrdinalValid(c: Civil)
    requires ValidCivil(c)
    ensures 1 <= ToOrdinal(c) <= MaxOrdinal && FromOrdinal(ToOrdinal(c)) == c
  {
    CivilFromOf(c, 1);
    DaysBeforeMonthStep(c.year, c.month);
    DaysBeforeYearMonotone(c.year + 1, MaxYear + 1);
    DaysBeforeYearFormula(MaxYear + 1);
  }

  /** `strftime('%Y-%m-%d')`. */
  function FormatIso(c: Civil): (s: string)
    requires ValidCivil(c)
    ensures |s| == 10
  {
    NatToStringLength(c.year, 4);
    NatToStringLength(c.month, 2);
    NatToStringLength(c.day, 2);
    ZeroPad(c.year, 4) + "-" + ZeroPad(c.month, 2) + "-" + ZeroPad(c.day, 2)
  }

  predicate IsoShape(s: string) {
    |s| == 10 && s[4] == '-' && s[7] == '-'
    && AllDigits(s[..4]) && AllDigits(s[5..7]) && AllDigits(s[8..])
  }

  /** `strptime(s, '%Y-%m-%d')` on canonical, zero-padded text: `None` where
      Python raises `ValueError`. */
  function ParseIso(s: string): (r: Option<Civil>)
    ensures r.Some? ==> ValidCivil(r.value)
  {
    if !IsoShape(s) then None
    else
      var c := Civil(DigitsValue(s[..4]), DigitsValue(s[5..7]), DigitsValue(s[8..]));
      if ValidCivil(c) then Some(c) else None
  }

  lemma ParseFormatIso(c: Civil)
    requires ValidCivil(c)
    ensures ParseIso(FormatIso(c)) == Some(c)
  {
    var s := FormatIso(c);
    NatToStringLength(c.year, 4);
    NatToStringLength(c.month, 2);
    NatToStringLength(c.day, 2);
    assert s[..4] == ZeroPad(c.year, 4);
    assert s[5..7] == ZeroPad(c.month, 2);
    assert s[8..] == ZeroPad(c.day, 2);
    ZeroPadValue(c.year, 4);
    ZeroPadValue(c.month, 2);
    ZeroPadValue(c.day, 2);
  }

  lemma FormatParseIso(s: string)
    requires ParseIso(s).Some?
    ensures FormatIso(ParseIso(s).value) == s
  {
    var c := ParseIso(s).value;
    ZeroPadOfDigits(s[..4]);
    ZeroPadOfDigits(s[5..7]);
    ZeroPadOfDigits(s[8..]);
    assert s == s[..4] + "-" + s[5..7] + "-" + s[8..];
  }

  /** A date text as an ordinal; `None` for text `strptime` rejects. */
  function ParseDate(s: string): (r: Option<int>)
    ensures r.Some? ==> 1 <= r.value <= MaxOrdinal
  {
    match ParseIso(s)
    case None => None
    case Some(c) => ToOrdinalValid(c); Some(ToOrdinal(c))
  }

  /** An ordinal as date text. Python cannot form a date outside the years
      1..9999; such ordinals render as the empty string. */
  function FormatDate(n: int): (s: string)
    ensures 1 <= n <= MaxOrdinal ==> |s| == 10
  {
    if 1 <= n <= MaxOrdinal then FromOrdinalValid(n); FormatIso(FromOrdinal(n)) else ""
  }

  /** Formatting then parsing gives back the ordinal. */
  lemma ParseFormatDate(n: int)
    requires 1 <= n <= MaxOrdinal
    ensures ParseDate(FormatDate(n)) == Some(n)
  {
    FromOrdinalValid(n);
    ParseFormatIso(FromOrdinal(n));
  }

  /** Parsing then formatting gives back the text. */
  lemma FormatParseDate(s: string)
    requires ParseDate(s).Some?
    ensures FormatDate(ParseDate(s).value) == s
  {
    var c := ParseIso(s).value;
    ToOrdinalValid(c);
    FormatParseIso(s);
  }
}
