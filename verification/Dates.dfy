/** Calendar arithmetic: days to dates and back, and the forge's timestamps
    (hunter-rs/src/store.rs, hunter-rs/src/scheduler.rs). */
module Dates {

  // ------------------------------------------------------------------
  // The calendar
  // ------------------------------------------------------------------

  datatype Date = Date(year: int, month: int, day: int)

  predicate IsLeap(y: int) {
    y % 4 == 0 && (y % 100 != 0 || y % 400 == 0)
  }

  function DaysIn(y: int, m: int): int {
    if m == 2 then (if IsLeap(y) then 29 else 28)
    else if m == 4 || m == 6 || m == 9 || m == 11 then 30
    else 31
  }

  predicate IsDate(d: Date) {
    1 <= d.month <= 12 && 1 <= d.day <= DaysIn(d.year, d.month)
  }

  /** The proleptic Gregorian calendar, day after day. */
  function NextDay(d: Date): Date {
    if d.day < DaysIn(d.year, d.month) then d.(day := d.day + 1)
    else if d.month < 12 then Date(d.year, d.month + 1, 1)
    else Date(d.year + 1, 1, 1)
  }

  predicate Before(a: Date, b: Date) {
    a.year < b.year
    || (a.year == b.year && (a.month < b.month || (a.month == b.month && a.day < b.day)))
  }

  const EPOCH := Date(1970, 1, 1)

  // ------------------------------------------------------------------
  // The two conversions
  // ------------------------------------------------------------------

  /** The source divides toward zero. */
  function Truncated(a: int, b: int): int
    requires b > 0
  {
    if a >= 0 then a / b else -((-a) / b)
  }

  function CivilFromDays(days: int): Date {
    var z := days + 719_468;
    var era := Truncated(if z >= 0 then z else z - 146_096, 146_097);
    DateOfEra(era, z - era * 146_097)
  }

  function DateOfEra(era: int, doe: int): Date {
    var yoe := Truncated(doe - Truncated(doe, 1_460) + Truncated(doe, 36_524) - Truncated(doe, 146_096), 365);
    var doy := doe - (365 * yoe + Truncated(yoe, 4) - Truncated(yoe, 100));
    var mp := Truncated(5 * doy + 2, 153);
    var d := doy - Truncated(153 * mp + 2, 5) + 1;
    var m := if mp < 10 then mp + 3 else mp - 9;
    Date(yoe + era * 400 + if m <= 2 then 1 else 0, m, d)
  }

  /** `civil_to_days`; the remainder and quotient of the year are Euclidean. */
  function CivilToDays(date: Date): int {
    var y := if date.month <= 2 then date.year - 1 else date.year;
    var era := y / 400;
    var yoe := y % 400;
    var doy := (153 * (if date.month > 2 then date.month - 3 else date.month + 9) + 2) / 5 + date.day - 1;
    var doe := yoe * 365 + yoe / 4 - yoe / 100 + doy;
    era * 146_097 + doe - 719_468
  }

  // ------------------------------------------------------------------
  // Years that start in March
  // ------------------------------------------------------------------

  /** Days of an era before its year `y`. */
  function DaysBefore(y: int): int {
    365 * y + y / 4 - y / 100
  }

  /** Whether the era's year `y`, which starts in March, ends in a leap day. */
  predicate LongYear(y: int) {
    IsLeap(y + 1)
  }

  function YearOfEra(doe: int): int {
    (doe - doe / 1_460 + doe / 36_524 - doe / 146_096) / 365
  }

  /** Centuries, leap cycles and years of an era. */
  lemma DaysBeforeParts(q: int, s: int, t: int)
    requires 0 <= q < 4 && 0 <= s < 25 && 0 <= t < 4
    ensures DaysBefore(100 * q + 4 * s + t) == 36_524 * q + 1_461 * s + 365 * t
  {
    var y := 100 * q + 4 * s + t;
    assert y / 100 == q;
    assert y / 4 == 25 * q + s;
  }

  lemma LongYearParts(q: int, s: int, t: int)
    requires 0 <= q < 4 && 0 <= s < 25 && 0 <= t < 4
    ensures LongYear(100 * q + 4 * s + t) <==> t == 3 && (s < 24 || q == 3)
  {
    var y := 100 * q + 4 * s + t + 1;
    assert y == 4 * (25 * q + s) + (t + 1);
    if t == 3 {
      assert y % 4 == 0;
      assert y == 100 * q + 4 * (s + 1);
      if s == 24 { assert y == 100 * (q + 1); } else { assert y % 100 == 4 * (s + 1); }
    } else {
      assert y % 4 == t + 1;
    }
  }

  lemma YearFoundParts(q: int, s: int, t: int, doy: int)
    requires 0 <= q < 4 && 0 <= s < 25 && 0 <= t < 4
    requires 0 <= doy <= 365 && (doy == 365 ==> t == 3 && (s < 24 || q == 3))
    ensures var doe := 36_524 * q + 1_461 * s + 365 * t + doy;
      0 <= doe < 146_097 && YearOfEra(doe) == 100 * q + 4 * s + t
  {
    var doe := 36_524 * q + 1_461 * s + 365 * t + doy;
    var e := 24 * q + s + 365 * t + doy;
    assert doe == 1_460 * (25 * q + s) + e;
    var extra := if e >= 1_460 then 1 else 0;
    assert doe / 1_460 == 25 * q + s + extra;
    assert doe / 36_524 - doe / 146_096 == q;
    assert doe - doe / 1_460 + doe / 36_524 - doe / 146_096 == 365 * (100 * q + 4 * s + t) + (doy - extra);
  }

  /** The closed formula finds the year. */
  lemma YearFound(y: int, doy: int)
    requires 0 <= y < 400 && 0 <= doy <= 365 && (doy == 365 ==> LongYear(y))
    ensures YearOfEra(DaysBefore(y) + doy) == y
    ensures 0 <= DaysBefore(y) + doy < 146_097
  {
    var q, s, t := y / 100, (y % 100) / 4, y % 4;
    assert y == 100 * q + 4 * s + t;
    DaysBeforeParts(q, s, t);
    LongYearParts(q, s, t);
    YearFoundParts(q, s, t, doy);
  }

  /** And every day of an era is a day of the year it finds. */
  lemma YearExact(doe: int)
    requires 0 <= doe < 146_097
    ensures var y := YearOfEra(doe);
      0 <= y < 400 && 0 <= doe - DaysBefore(y) <= 365 && (doe - DaysBefore(y) == 365 ==> LongYear(y))
  {
    var q := if doe == 146_096 then 3 else doe / 36_524;
    var r := doe - 36_524 * q;
    var s := r / 1_461;
    var u := r - 1_461 * s;
    var t := if u == 1_460 then 3 else u / 365;
    DaysBeforeParts(q, s, t);
    LongYearParts(q, s, t);
    YearFoundParts(q, s, t, u - 365 * t);
  }

  // ------------------------------------------------------------------
  // Months that start in March
  // ------------------------------------------------------------------

  /** Days of such a year before its month `mp`. */
  function MonthStart(mp: int): int {
    (153 * mp + 2) / 5
  }

  function MonthLength(mp: int, long: bool): int {
    if mp == 11 then (if long then 29 else 28)
    else if mp == 1 || mp == 3 || mp == 6 || mp == 8 then 30
    else 31
  }

  lemma MonthFound(mp: int, day: int, long: bool)
    requires 0 <= mp < 12 && 1 <= day <= MonthLength(mp, long)
    ensures var doy := MonthStart(mp) + day - 1;
      0 <= doy <= 365 && (doy == 365 ==> long) && (5 * doy + 2) / 153 == mp
  {}

  lemma MonthExact(doy: int, long: bool)
    requires 0 <= doy <= 365 && (doy == 365 ==> long)
    ensures var mp := (5 * doy + 2) / 153;
      0 <= mp < 12 && 1 <= doy - MonthStart(mp) + 1 <= MonthLength(mp, long)
  {}

  // ------------------------------------------------------------------
  // The conversions in these terms
  // ------------------------------------------------------------------

  lemma DivBy4(x: int, q: int, r: int)
    requires x == 4 * q + r && 0 <= r < 4
    ensures x / 4 == q && x % 4 == r
  {}

  lemma DivBy100(x: int, q: int, r: int)
    requires x == 100 * q + r && 0 <= r < 100
    ensures x / 100 == q && x % 100 == r
  {}

  lemma DivBy400(x: int, q: int, r: int)
    requires x == 400 * q + r && 0 <= r < 400
    ensures x / 400 == q && x % 400 == r
  {}

  lemma DivByEra(x: int, q: int, r: int)
    requires x == 146_097 * q + r && 0 <= r < 146_097
    ensures x / 146_097 == q && x % 146_097 == r
  {}

  /** Truncating after the shift is flooring. */
  lemma EraFound(z: int)
    ensures Truncated(if z >= 0 then z else z - 146_096, 146_097) == z / 146_097
  {
    if z < 0 {
      var n := -(z - 146_096);
      DivByEra(z, -(n / 146_097), 146_096 - n % 146_097);
    }
  }

  /** Within an era every operand is non-negative, so truncation is no
      different from flooring there. */
  lemma YearOfEraTruncated(doe: int)
    requires 0 <= doe < 146_097
    ensures Truncated(doe - Truncated(doe, 1_460) + Truncated(doe, 36_524) - Truncated(doe, 146_096), 365)
      == YearOfEra(doe)
  {
    assert doe / 1_460 <= doe;
  }

  function DateFrom(era: int, yoe: int, mp: int, day: int): Date {
    Date(yoe + era * 400 + (if mp >= 10 then 1 else 0), if mp < 10 then mp + 3 else mp - 9, day)
  }

  function DateInEra(era: int, doe: int): Date {
    var yoe := YearOfEra(doe);
    var doy := doe - DaysBefore(yoe);
    var mp := (5 * doy + 2) / 153;
    DateFrom(era, yoe, mp, doy - MonthStart(mp) + 1)
  }

  lemma DateOfEraInEra(era: int, doe: int)
    requires 0 <= doe < 146_097
    ensures DateOfEra(era, doe) == DateInEra(era, doe)
  {
    YearOfEraTruncated(doe);
    YearExact(doe);
    MonthExact(doe - DaysBefore(YearOfEra(doe)), LongYear(YearOfEra(doe)));
  }

  lemma FromDaysInEra(days: int)
    ensures CivilFromDays(days) == DateInEra((days + 719_468) / 146_097, (days + 719_468) % 146_097)
  {
    var z := days + 719_468;
    EraFound(z);
    DateOfEraInEra(z / 146_097, z % 146_097);
  }

  lemma LeapPeriod(y: int, k: int)
    ensures IsLeap(y + 400 * k) <==> IsLeap(y)
  {
    DivBy4(y + 400 * k, y / 4 + 100 * k, y % 4);
    DivBy100(y + 400 * k, y / 100 + 4 * k, y % 100);
    DivBy400(y + 400 * k, y / 400 + k, y % 400);
  }

  /** Month lengths, in both namings. */
  lemma MonthNames(y: int, k: int, mp: int)
    requires 0 <= mp < 12
    ensures var m := if mp < 10 then mp + 3 else mp - 9;
      1 <= m <= 12 && DaysIn(y + 400 * k + (if mp >= 10 then 1 else 0), m) == MonthLength(mp, LongYear(y))
  {
    LeapPeriod(y + 1, k);
  }

  lemma DateInEraIsDate(era: int, doe: int)
    requires 0 <= doe < 146_097
    ensures IsDate(DateInEra(era, doe))
  {
    YearExact(doe);
    var yoe := YearOfEra(doe);
    var doy := doe - DaysBefore(yoe);
    MonthExact(doy, LongYear(yoe));
    MonthNames(yoe, era, (5 * doy + 2) / 153);
  }

  /** The day number of a date given in these terms. */
  lemma NumberFrom(era: int, yoe: int, mp: int, day: int)
    requires 0 <= yoe < 400 && 0 <= mp < 12
    ensures CivilToDays(DateFrom(era, yoe, mp, day))
      == era * 146_097 + DaysBefore(yoe) + MonthStart(mp) + day - 1 - 719_468
  {
    DivBy400(yoe + era * 400, era, yoe);
  }

  lemma PartsOfEra(doe: int) returns (yoe: int, doy: int, mp: int)
    requires 0 <= doe < 146_097
    ensures 0 <= yoe < 400 && 0 <= mp < 12 && doe == DaysBefore(yoe) + doy
    ensures yoe == YearOfEra(doe) && mp == (5 * doy + 2) / 153
  {
    YearExact(doe);
    yoe := YearOfEra(doe);
    doy := doe - DaysBefore(yoe);
    mp := (5 * doy + 2) / 153;
    MonthExact(doy, LongYear(yoe));
  }

  /** Back from the date to the day of the era. */
  lemma DateInEraBack(era: int, doe: int)
    requires 0 <= doe < 146_097
    ensures CivilToDays(DateInEra(era, doe)) == era * 146_097 + doe - 719_468
  {
    var yoe, doy, mp := PartsOfEra(doe);
    NumberFrom(era, yoe, mp, doy - MonthStart(mp) + 1);
  }

  // ------------------------------------------------------------------
  // Both ways
  // ------------------------------------------------------------------

  /** Every day number is a date of the calendar, and converts back. */
  lemma DaysRoundTrip(days: int)
    ensures IsDate(CivilFromDays(days))
    ensures CivilToDays(CivilFromDays(days)) == days
  {
    FromDaysInEra(days);
    DateInEraIsDate((days + 719_468) / 146_097, (days + 719_468) % 146_097);
    DateInEraBack((days + 719_468) / 146_097, (days + 719_468) % 146_097);
  }

  function ShiftedYear(d: Date): int {
    if d.month <= 2 then d.year - 1 else d.year
  }

  function ShiftedMonth(m: int): int {
    if m > 2 then m - 3 else m + 9
  }

  lemma ToDaysParts(d: Date)
    requires IsDate(d)
    ensures var y, mp := ShiftedYear(d), ShiftedMonth(d.month);
      && 0 <= mp < 12 && 1 <= d.day <= MonthLength(mp, LongYear(y % 400))
      && CivilToDays(d) == YearStart(y) + MonthStart(mp) + d.day - 1 - 719_468
  {
    var y, mp := ShiftedYear(d), ShiftedMonth(d.month);
    MonthNames(y % 400, y / 400, mp);
    assert y % 400 + 400 * (y / 400) == y;
  }

  /** Where a date lies in its era. */
  lemma Locate(d: Date) returns (era: int, yoe: int, mp: int, doy: int)
    requires IsDate(d)
    ensures CivilToDays(d) + 719_468 == 146_097 * era + (DaysBefore(yoe) + doy)
    ensures 0 <= DaysBefore(yoe) + doy < 146_097
    ensures mp == ShiftedMonth(d.month) && doy == MonthStart(mp) + d.day - 1 && ShiftedYear(d) == era * 400 + yoe
    ensures YearOfEra(DaysBefore(yoe) + doy) == yoe && (5 * doy + 2) / 153 == mp
  {
    ToDaysParts(d);
    var y := ShiftedYear(d);
    era, yoe, mp := y / 400, y % 400, ShiftedMonth(d.month);
    MonthFound(mp, d.day, LongYear(yoe));
    doy := MonthStart(mp) + d.day - 1;
    YearFound(yoe, doy);
  }

  /** Every date of the calendar converts back. */
  lemma DatesRoundTrip(d: Date)
    requires IsDate(d)
    ensures CivilFromDays(CivilToDays(d)) == d
  {
    var n := CivilToDays(d);
    var era, yoe, mp, doy := Locate(d);
    DivByEra(n + 719_468, era, DaysBefore(yoe) + doy);
    FromDaysInEra(n);
    DateInEraIs(d, era, yoe, doy, mp);
  }

  lemma DateInEraIs(d: Date, era: int, yoe: int, doy: int, mp: int)
    requires 1 <= d.month <= 12 && mp == ShiftedMonth(d.month) && doy == MonthStart(mp) + d.day - 1
    requires YearOfEra(DaysBefore(yoe) + doy) == yoe && (5 * doy + 2) / 153 == mp
    requires ShiftedYear(d) == era * 400 + yoe
    ensures DateInEra(era, DaysBefore(yoe) + doy) == d
  {}

  lemma MonthStartStep(mp: int)
    requires 0 <= mp < 11
    ensures MonthStart(mp + 1) == MonthStart(mp) + MonthLength(mp, false)
  {}

  function YearLength(y: int): int {
    if LongYear(y) then 366 else 365
  }

  lemma DaysBeforeStep(y: int)
    requires 0 <= y < 399
    ensures DaysBefore(y + 1) == DaysBefore(y) + YearLength(y)
  {
    var q, s, t := y / 100, (y % 100) / 4, y % 4;
    DaysBeforeParts(q, s, t);
    LongYearParts(q, s, t);
    assert y == 100 * q + 4 * s + t;
    if t < 3 { DaysBeforeParts(q, s, t + 1); }
    else if s < 24 { DaysBeforeParts(q, s + 1, 0); }
    else { DaysBeforeParts(q + 1, 0, 0); }
  }

  function YearStart(y: int): int {
    y / 400 * 146_097 + DaysBefore(y % 400)
  }

  lemma YearStep(y: int)
    ensures YearStart(y + 1) == YearStart(y) + MonthStart(11) + MonthLength(11, LongYear(y % 400))
  {
    var era, yoe := y / 400, y % 400;
    assert y == 400 * era + yoe;
    if yoe == 399 {
      DivBy400(y + 1, era + 1, 0);
      assert DaysBefore(399) == 145_731 && LongYear(399);
    } else {
      DivBy400(y + 1, era, yoe + 1);
      DaysBeforeStep(yoe);
    }
  }

  lemma NextDayIsDate(d: Date)
    requires IsDate(d)
    ensures IsDate(NextDay(d))
  {}

  /** The next day number is the calendar's next day. */
  lemma NextDayIsNext(d: Date)
    requires IsDate(d)
    ensures IsDate(NextDay(d)) && CivilToDays(NextDay(d)) == CivilToDays(d) + 1
  {
    NextDayIsDate(d);
    ToDaysParts(d);
    ToDaysParts(NextDay(d));
    NextDayParts(d);
  }

  lemma NextDayParts(d: Date)
    requires IsDate(d)
    ensures var e := NextDay(d);
      YearStart(ShiftedYear(e)) + MonthStart(ShiftedMonth(e.month)) + e.day
      == YearStart(ShiftedYear(d)) + MonthStart(ShiftedMonth(d.month)) + d.day + 1
  {
    var y, mp := ShiftedYear(d), ShiftedMonth(d.month);
    if d.day == DaysIn(d.year, d.month) {
      MonthNames(y % 400, y / 400, mp);
      assert y % 400 + 400 * (y / 400) == y;
      if mp < 11 { MonthStartStep(mp); } else { YearStep(y); }
    }
  }

  lemma EpochToDays()
    ensures CivilToDays(EPOCH) == 0
  {
    DivBy400(1969, 4, 369);
  }

  lemma EpochIsZero()
    ensures CivilFromDays(0) == EPOCH
  {
    EpochToDays();
    var n := NumberOf(EPOCH);
  }

  ghost predicate Consecutive(f: int -> Date) {
    forall k :: IsDate(f(k)) && f(k + 1) == NextDay(f(k))
  }

  lemma {:induction false} LaterIsAfter(f: int -> Date, m: int, n: nat)
    requires Consecutive(f) && n > 0
    ensures Before(f(m), f(m + n))
    decreases n
  {
    if n == 1 {
      assert f(m + 1) == NextDay(f(m));
    } else {
      LaterIsAfter(f, m, n - 1);
      assert f(m + (n - 1) + 1) == NextDay(f(m + (n - 1)));
    }
  }

  lemma OrderOfDays(f: int -> Date, m: int, n: int)
    requires Consecutive(f)
    ensures Before(f(m), f(n)) <==> m < n
  {
    if m < n { LaterIsAfter(f, m, n - m); }
    if n < m { LaterIsAfter(f, n, m - n); }
  }

  lemma NumberOf(d: Date) returns (n: int)
    requires IsDate(d)
    ensures n == CivilToDays(d) && CivilFromDays(n) == d
  {
    n := CivilToDays(d);
    DatesRoundTrip(d);
  }

  ghost predicate Inverse(f: int -> Date, g: Date -> int) {
    && (forall n :: IsDate(f(n)) && g(f(n)) == n)
    && (forall d | IsDate(d) :: f(g(d)) == d)
    && (forall d | IsDate(d) :: IsDate(NextDay(d)) && g(NextDay(d)) == g(d) + 1)
  }

  lemma InverseCounts(f: int -> Date, g: Date -> int)
    requires Inverse(f, g)
    ensures Consecutive(f)
  {
    forall n ensures f(n + 1) == NextDay(f(n)) {
      var d := f(n);
      assert IsDate(d) && g(d) == n;
      assert g(NextDay(d)) == n + 1;
      assert f(g(NextDay(d))) == NextDay(d);
    }
  }

  /** Day numbers count the calendar's days, forwards and backwards without
      end. */
  lemma DaysConsecutive()
    ensures Consecutive(CivilFromDays)
  {
    forall n ensures IsDate(CivilFromDays(n)) && CivilToDays(CivilFromDays(n)) == n { DaysRoundTrip(n); }
    forall d | IsDate(d) ensures CivilFromDays(CivilToDays(d)) == d { DatesRoundTrip(d); }
    forall d | IsDate(d) ensures IsDate(NextDay(d)) && CivilToDays(NextDay(d)) == CivilToDays(d) + 1 {
      NextDayIsNext(d);
    }
    InverseCounts(CivilFromDays, CivilToDays);
  }

  /** The order of dates is the order of day numbers. */
  lemma OrderPreserved(a: Date, b: Date)
    requires IsDate(a) && IsDate(b)
    ensures Before(a, b) <==> CivilToDays(a) < CivilToDays(b)
  {
    var m := NumberOf(a);
    var n := NumberOf(b);
    DaysConsecutive();
    OrderOfDays(CivilFromDays, m, n);
  }
}
