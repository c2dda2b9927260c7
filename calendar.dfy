/** The calendar of `pandas.Timestamp` on day numbers (day 0 is 1970-01-01), by the
    days-to-civil-date conversion of the proleptic Gregorian calendar: an era of 400 years has
    146097 days and, counted from 1 March, years of 365 or 366 days whose months run
    March .. February. */
module Calendar {
  /** `Timestamp.weekday()` of a day number (day 0 is a Thursday; Monday is 0). */
  function Weekday(t: int): (d: int)
    ensures 0 <= d <= 6
    ensures t == 0 ==> d == 3
  {
    (t + 3) % 7
  }

  /** `Timestamp.day` of a day number. */
  function DayOfMonth(t: int): (d: int)
    ensures 1 <= d <= 31
  {
    DayOfMonthInRange(t);
    DayOfMarchYear(DayOfYear(DayOfEra(t)))
  }

  /** The weekday advances by one each day, wrapping from Sunday to Monday. */
  lemma WeekdayStep(t: int)
    ensures Weekday(t + 1) == (Weekday(t) + 1) % 7
  {
    var q := (t + 3) / 7;
    assert t + 3 == 7 * q + Weekday(t);
    if Weekday(t) < 6 {
      DivMod7(t + 4, q, Weekday(t) + 1);
    } else {
      DivMod7(t + 4, q + 1, 0);
    }
  }
  lemma DivMod7(a: int, q: int, r: int)
    requires a == 7 * q + r && 0 <= r < 7
    ensures a % 7 == r
  {
  }

  /** The day of the 400-year era starting on 1 March of a year divisible by 400. */
  function DayOfEra(t: int): (doe: int)
    ensures 0 <= doe <= 146096
  {
    var z := t + 719468;
    z - (z / 146097) * 146097
  }
  /** The year of the era (0 .. 399) in which day `doe` falls. */
  function YearOfEra(doe: int): int
  {
    (doe - doe / 1460 + doe / 36524 - doe / 146096) / 365
  }
  /** The day of the era on which year y of the era starts. */
  function YearStart(y: int): int
  {
    365 * y + y / 4 - y / 100
  }
  /** The day of the March-based year (0 .. 365). */
  function DayOfYear(doe: int): int
  {
    doe - YearStart(YearOfEra(doe))
  }
  /** The day of the month of day `doy` of a March-based year (months of 31, 30, 31, 30, 31,
      31, 30, 31, 30, 31, 31 and 28 or 29 days). */
  function DayOfMarchYear(doy: int): int
  {
    var mp := (5 * doy + 2) / 153;
    doy - (153 * mp + 2) / 5 + 1
  }
  /** Day `doe` falls within its year: the year starts on or before it and the next after it. */
  lemma YearBounds(doe: int)
    requires 0 <= doe <= 146096
    ensures var y := YearOfEra(doe);
      0 <= y <= 399 && YearStart(y) <= doe && (doe < YearStart(y + 1) || (y == 399 && doe == 146096))
  {
    if doe == 146096 {
      assert YearOfEra(doe) == 399;
    } else {
      var b := doe / 36524;
      assert 36524 * b <= doe < 36524 * b + 36524;
      assert doe / 146096 == 0;
      YearBoundsInCentury(doe, b);
    }
  }

  lemma YearBoundsInCentury(doe: int, b: int)
    requires 0 <= doe < 146096 && 0 <= b <= 3 && 36524 * b <= doe < 36524 * b + 36524
    ensures var y := YearOfEra(doe);
      0 <= y <= 399 && YearStart(y) <= doe && doe < YearStart(y + 1)
  {
    var r := doe - 36524 * b;
    var q := r / 1461;
    var s := r - 1461 * q;
    assert 1461 * q <= r < 1461 * q + 1461;
    var e := if 24 * b + q + s >= 1460 then 1 else 0;
    var k := (s - e) / 365;
    assert 365 * k <= s - e < 365 * k + 365;
    YearOfEraIs(doe, b, q, s, k);
    YearStartIs(b, q, k);
  }

  /** The year of the era, from the century b, the four-year cycle q, the day s within it and
      the year k within the cycle. */
  lemma YearOfEraIs(doe: int, b: int, q: int, s: int, k: int)
    requires 0 <= b <= 3 && doe == 36524 * b + 1461 * q + s && 0 <= doe < 146096
    requires 0 <= s < 1461 && 0 <= q && 1461 * q + s < 36524
    requires var e := if 24 * b + q + s >= 1460 then 1 else 0;
      365 * k <= s - e < 365 * k + 365
    ensures 0 <= q <= 24 && (q == 24 ==> s < 1460) && 0 <= k <= 3
    ensures YearOfEra(doe) == 100 * b + 4 * q + k
  {
    var e := if 24 * b + q + s >= 1460 then 1 else 0;
    DivBy1460(doe, 25 * b + q + e);
    DivBy36524(doe, b);
    DivBy146096(doe, 0);
    DivBy365(doe - (25 * b + q + e) + b, 100 * b + 4 * q + k);
  }

  /** Where year y = 100b + 4q + k of the era starts, and how long it is. */
  lemma YearStartIs(b: int, q: int, k: int)
    requires 0 <= b <= 3 && 0 <= q <= 24 && 0 <= k <= 3
    ensures YearStart(100 * b + 4 * q + k) == 36524 * b + 1461 * q + 365 * k
    ensures YearStart(100 * b + 4 * q + k + 1) ==
      YearStart(100 * b + 4 * q + k) + (if k == 3 && q < 24 then 366 else 365)
  {
    var y := 100 * b + 4 * q + k;
    DivBy4(y, 25 * b + q);
    DivBy100(y, b);
    if k < 3 {
      DivBy4(y + 1, 25 * b + q);
      DivBy100(y + 1, b);
    } else if q < 24 {
      DivBy4(y + 1, 25 * b + q + 1);
      DivBy100(y + 1, b);
    } else {
      DivBy4(y + 1, 25 * b + q + 1);
      DivBy100(y + 1, b + 1);
    }
  }

  lemma DivBy36524(a: int, q: int)
    requires 36524 * q <= a < 36524 * q + 36524
    ensures a / 36524 == q
  {
  }

  lemma DivBy146096(a: int, q: int)
    requires 146096 * q <= a < 146096 * q + 146096
    ensures a / 146096 == q
  {
  }

  lemma DivBy4(a: int, q: int)
    requires 4 * q <= a < 4 * q + 4
    ensures a / 4 == q
  {
  }

  lemma DivBy100(a: int, q: int)
    requires 100 * q <= a < 100 * q + 100
    ensures a / 100 == q
  {
  }

  lemma DivBy365(a: int, q: int)
    requires 365 * q <= a < 365 * q + 365
    ensures a / 365 == q
  {
  }

  lemma DivBy1460(a: int, q: int)
    requires 1460 * q <= a < 1460 * q + 1460
    ensures a / 1460 == q
  {
  }

  /** Years are at least 364 days apart. */
  lemma YearStartGrows(y1: int, y2: int)
    requires 0 <= y1 < y2
    ensures YearStart(y2) >= YearStart(y1) + 364 * (y2 - y1)
  {
    assert 4 * (y1 / 4) <= y1 < 4 * (y1 / 4) + 4;
    assert 100 * (y1 / 100) <= y1 < 100 * (y1 / 100) + 100;
    assert 4 * (y2 / 4) <= y2 < 4 * (y2 / 4) + 4;
    assert 100 * (y2 / 100) <= y2 < 100 * (y2 / 100) + 100;
  }

  /** The day of the year advances by one, or starts a new year. */
  lemma DayOfYearStep(doe: int)
    requires 0 <= doe < 146096
    ensures DayOfYear(doe + 1) == DayOfYear(doe) + 1 || DayOfYear(doe + 1) == 0
  {
    var y := YearOfEra(doe);
    var y' := YearOfEra(doe + 1);
    YearBounds(doe);
    YearBounds(doe + 1);
    if y' < y {
      YearStartGrows(y', y);
      assert false;
    } else if y' > y + 1 {
      YearStartGrows(y + 1, y');
      assert false;
    }
  }

  lemma DivBy5(a: int, q: int)
    requires 5 * q <= a < 5 * q + 5
    ensures a / 5 == q
  {
  }

  /** The day of the month advances by one, or a new month starts. */
  lemma DayOfMarchYearStep(doy: int)
    ensures DayOfMarchYear(doy + 1) == DayOfMarchYear(doy) + 1 || DayOfMarchYear(doy + 1) == 1
  {
    var a := 5 * doy + 2;
    var mp := a / 153;
    var mp2 := (a + 5) / 153;
    assert 153 * mp <= a < 153 * mp + 153;
    assert 153 * mp2 <= a + 5 < 153 * mp2 + 153;
    if mp2 != mp {
      assert mp2 == mp + 1;
      DivBy5(153 * mp2 + 2, doy + 1);
    }
  }

  /** The day of the month advances by one each day, or a new month starts on the 1st. */
  lemma DayOfMonthStep(t: int)
    ensures DayOfMonth(t + 1) == DayOfMonth(t) + 1 || DayOfMonth(t + 1) == 1
  {
    DayOfEraStep(t);
    if DayOfEra(t) < 146096 {
      DayInEraStep(DayOfEra(t));
    } else {
      EraStartsOnFirst();
    }
  }

  /** The next day is the next day of the era, or the first day of the next era. */
  lemma DayOfEraStep(t: int)
    ensures (DayOfEra(t) < 146096 && DayOfEra(t + 1) == DayOfEra(t) + 1) ||
            (DayOfEra(t) == 146096 && DayOfEra(t + 1) == 0)
  {
    var z := t + 719468;
    var era := z / 146097;
    assert 146097 * era <= z < 146097 * era + 146097;
    if z - 146097 * era < 146096 {
      DivBy146097(z + 1, era);
    } else {
      DivBy146097(z + 1, era + 1);
    }
  }

  lemma DayInEraStep(doe: int)
    requires 0 <= doe < 146096
    ensures DayOfMarchYear(DayOfYear(doe + 1)) == DayOfMarchYear(DayOfYear(doe)) + 1 ||
            DayOfMarchYear(DayOfYear(doe + 1)) == 1
  {
    DayOfYearStep(doe);
    if DayOfYear(doe + 1) == 0 {
      MarchFirst();
    } else {
      DayOfMarchYearStep(DayOfYear(doe));
    }
  }

  /** An era starts on 1 March. */
  lemma EraStartsOnFirst()
    ensures DayOfMarchYear(DayOfYear(0)) == 1
  {
    assert YearOfEra(0) == 0 && YearStart(0) == 0;
    MarchFirst();
  }

  /** Day 0 of a March-based year is the first of the month. */
  lemma MarchFirst()
    ensures DayOfMarchYear(0) == 1
  {
  }

  lemma DivBy146097(a: int, q: int)
    requires 146097 * q <= a < 146097 * q + 146097
    ensures a / 146097 == q
  {
  }

  /** The day of the month from the era, the day of the era and the year of the era. */
  lemma DayOfMonthFrom(t: int, era: int, y: int)
    requires 146097 * era <= t + 719468 < 146097 * era + 146097
    requires YearOfEra(t + 719468 - 146097 * era) == y
    ensures DayOfEra(t) == t + 719468 - 146097 * era
    ensures DayOfMonth(t) == DayOfMarchYear(t + 719468 - 146097 * era - YearStart(y))
  {
    DivBy146097(t + 719468, era);
  }

  /** 1970-01-01, 1970-02-01 and 1970-03-01 are first days of their months. */
  lemma Anchor0()
    ensures DayOfMonth(0) == 1
  {
    assert YearOfEra(135080) == 369;
    DayOfMonthFrom(0, 4, 369);
    assert YearStart(369) == 134774;
    assert DayOfMarchYear(306) == 1;
  }

  lemma Anchor31()
    ensures DayOfMonth(31) == 1
  {
    assert YearOfEra(135111) == 369;
    DayOfMonthFrom(31, 4, 369);
    assert YearStart(369) == 134774;
    assert DayOfMarchYear(337) == 1;
  }

  lemma Anchor59()
    ensures DayOfMonth(59) == 1
  {
    assert YearOfEra(135139) == 370;
    DayOfMonthFrom(59, 4, 370);
    assert YearStart(370) == 135139;
    assert DayOfMarchYear(0) == 1;
  }

  /** 2000-02-29 (day 11016), the leap day of a year divisible by 400, is a Tuesday. */
  lemma Anchor11016()
    ensures DayOfMonth(11016) == 29 && Weekday(11016) == 1
  {
    assert YearOfEra(146096) == 399;
    DayOfMonthFrom(11016, 4, 399);
    assert YearStart(399) == 145731;
    assert DayOfMarchYear(365) == 29;
  }

  /** The days of the month of a March-based year are 1 .. 31. */
  lemma MarchYearDayRange(doy: int)
    requires 0 <= doy <= 365
    ensures 1 <= DayOfMarchYear(doy) <= 31
  {
    var a := 5 * doy + 2;
    var mp := a / 153;
    assert 153 * mp <= a < 153 * mp + 153;
    var c := (153 * mp + 2) / 5;
    assert 5 * c <= 153 * mp + 2 < 5 * c + 5;
  }

  /** No year is longer than 366 days. */
  lemma YearAtMost366(y: int)
    requires 0 <= y
    ensures YearStart(y + 1) <= YearStart(y) + 366
  {
    assert 4 * (y / 4) <= y < 4 * (y / 4) + 4;
    assert 100 * (y / 100) <= y < 100 * (y / 100) + 100;
    assert 4 * ((y + 1) / 4) <= y + 1 < 4 * ((y + 1) / 4) + 4;
    assert 100 * ((y + 1) / 100) <= y + 1 < 100 * ((y + 1) / 100) + 100;
  }

  lemma DayOfMonthInRange(t: int)
    ensures 1 <= DayOfMarchYear(DayOfYear(DayOfEra(t))) <= 31
  {
    var doe := DayOfEra(t);
    YearBounds(doe);
    YearAtMost366(YearOfEra(doe));
    assert YearStart(399) == 145731;
    MarchYearDayRange(DayOfYear(doe));
  }
}
