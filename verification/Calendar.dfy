/** Gregorian dates, and the month arithmetic of billing periods, transfers, terminations and countdowns. */
module Calendar {
  datatype Date = Date(year: int, month: int, day: int)

  predicate Leap(year: int) {
    year % 4 == 0 && (year % 100 != 0 || year % 400 == 0)
  }

  function DaysIn(year: int, month: int): (n: int)
    ensures 28 <= n <= 31
  {
    if month == 2 then (if Leap(year) then 29 else 28)
    else if month == 4 || month == 6 || month == 9 || month == 11 then 30
    else 31
  }

  predicate Valid(d: Date) {
    d.year >= 1 && 1 <= d.month <= 12 && 1 <= d.day <= DaysIn(d.year, d.month)
  }

  predicate Before(a: Date, b: Date) {
    a.year < b.year
    || (a.year == b.year && (a.month < b.month || (a.month == b.month && a.day < b.day)))
  }

  function DaysBeforeYear(year: int): int {
    365 * (year - 1) + (year - 1) / 4 - (year - 1) / 100 + (year - 1) / 400
  }

  function DaysBeforeMonth(year: int, month: int): int
    requires 1 <= month <= 12
    decreases month
  {
    if month == 1 then 0 else DaysBeforeMonth(year, month - 1) + DaysIn(year, month - 1)
  }

  /** The proleptic Gregorian ordinal: 1 January of year 1 has number 1. */
  function Ordinal(d: Date): int
    requires 1 <= d.month <= 12
  {
    DaysBeforeYear(d.year) + DaysBeforeMonth(d.year, d.month) + d.day
  }

  function NextDay(d: Date): (r: Date)
    requires Valid(d)
    ensures Valid(r)
  {
    if d.day < DaysIn(d.year, d.month) then d.(day := d.day + 1)
    else if d.month < 12 then Date(d.year, d.month + 1, 1)
    else Date(d.year + 1, 1, 1)
  }

  function AddDays(d: Date, n: nat): (r: Date)
    requires Valid(d)
    ensures Valid(r)
    decreases n
  {
    if n == 0 then d else AddDays(NextDay(d), n - 1)
  }

  /** The day before, for any day but the first of all. */
  function PreviousDay(d: Date): (r: Date)
    requires Valid(d) && d != Date(1, 1, 1)
    ensures Valid(r)
  {
    if d.day > 1 then d.(day := d.day - 1)
    else if d.month > 1 then Date(d.year, d.month - 1, DaysIn(d.year, d.month - 1))
    else Date(d.year - 1, 12, 31)
  }

  lemma YearLength(year: int)
    ensures DaysBeforeYear(year + 1) == DaysBeforeYear(year) + (if Leap(year) then 366 else 365)
  {
    Quotient(year, 4);
    Quotient(year, 100);
    Quotient(year, 400);
    Centuries(year);
  }

  lemma Centuries(year: int)
    ensures year % 100 == 0 ==> year % 4 == 0
    ensures year % 400 == 0 ==> year % 100 == 0
  {
    if year % 100 == 0 {
      assert year == 4 * (25 * (year / 100));
    }
    if year % 400 == 0 {
      assert year == 100 * (4 * (year / 400));
    }
  }

  lemma Quotient(year: int, k: int)
    requires k == 4 || k == 100 || k == 400
    ensures year / k == (year - 1) / k + (if year % k == 0 then 1 else 0)
  {
  }

  lemma MonthsOfYear(year: int)
    ensures DaysBeforeMonth(year, 12) + 31 == if Leap(year) then 366 else 365
  {
    assert DaysBeforeMonth(year, 3) == 31 + DaysIn(year, 2);
    assert DaysBeforeMonth(year, 6) == DaysBeforeMonth(year, 3) + 92;
    assert DaysBeforeMonth(year, 9) == DaysBeforeMonth(year, 6) + 92;
    assert DaysBeforeMonth(year, 12) == DaysBeforeMonth(year, 9) + 91;
  }

  function NextMonth(year: int, month: int): (int, int) {
    if month == 12 then (year + 1, 1) else (year, month + 1)
  }

  /** The number of the first day of a month. */
  function MonthStart(year: int, month: int): int
    requires 1 <= month <= 12
  {
    Ordinal(Date(year, month, 1))
  }

  lemma MonthLength(year: int, month: int)
    requires 1 <= month <= 12
    ensures
      var (y, m) := NextMonth(year, month);
      MonthStart(y, m) == MonthStart(year, month) + DaysIn(year, month)
  {
    if month == 12 {
      YearLength(year);
      MonthsOfYear(year);
    }
  }

  lemma NextDayCounts(d: Date)
    requires Valid(d)
    ensures Ordinal(NextDay(d)) == Ordinal(d) + 1
  {
    MonthLength(d.year, d.month);
  }

  /** Adding days adds to the ordinal: `AddDays` is the addition of a `timedelta`. */
  lemma {:induction false} AddDaysCounts(d: Date, n: nat)
    requires Valid(d)
    ensures Ordinal(AddDays(d, n)) == Ordinal(d) + n
    decreases n
  {
    if n > 0 {
      NextDayCounts(d);
      AddDaysCounts(NextDay(d), n - 1);
    }
  }

  lemma PreviousDayInverts(d: Date)
    requires Valid(d) && d != Date(1, 1, 1)
    ensures NextDay(PreviousDay(d)) == d && Ordinal(PreviousDay(d)) == Ordinal(d) - 1
  {
    NextDayCounts(PreviousDay(d));
  }

  /** Months count up, so a later month starts after every day of an earlier one. */
  lemma {:induction false} LaterMonthStartsLater(y: int, m: int, year: int, month: int)
    requires 1 <= m <= 12 && 1 <= month <= 12
    requires y < year || (y == year && m < month)
    ensures MonthStart(y, m) + DaysIn(y, m) <= MonthStart(year, month)
    decreases 12 * (year - y) + month - m
  {
    var (y', m') := NextMonth(y, m);
    MonthLength(y, m);
    if (y', m') != (year, month) {
      LaterMonthStartsLater(y', m', year, month);
    }
  }

  /** The ordinal orders dates as the calendar does. */
  lemma OrdinalOrders(a: Date, b: Date)
    requires Valid(a) && Valid(b)
    ensures Before(a, b) <==> Ordinal(a) < Ordinal(b)
    ensures a == b <==> Ordinal(a) == Ordinal(b)
  {
    if a.year < b.year || (a.year == b.year && a.month < b.month) {
      LaterMonthStartsLater(a.year, a.month, b.year, b.month);
    } else if b.year < a.year || (a.year == b.year && b.month < a.month) {
      LaterMonthStartsLater(b.year, b.month, a.year, a.month);
    } else {
      assert Ordinal(a) - Ordinal(b) == a.day - b.day;
    }
  }

  /** Day 28 plus four days, back to the first: the form of the synchronizers and of the termination. */
  function FirstByDay28(today: Date): Date
    requires Valid(today)
  {
    AddDays(today.(day := 28), 4).(day := 1)
  }

  /** The quotient and remainder form of the billing transfer. */
  function FirstByDivMod(today: Date): Date {
    Date(today.year + today.month / 12, today.month % 12 + 1, 1)
  }

  /** The end date of `BillingPeriod.from_year_month`. */
  function PeriodEnd(year: int, month: int): Date {
    var (y, m) := NextMonth(year, month);
    Date(y, m, 1)
  }

  lemma FourDaysOn(d: Date)
    requires Valid(d) && d.day == 28
    ensures
      var (y, m) := NextMonth(d.year, d.month);
      var r := AddDays(d, 4);
      r.year == y && r.month == m && 1 <= r.day <= 4
  {
    var d1 := NextDay(d);
    var d2 := NextDay(d1);
    var d3 := NextDay(d2);
    assert AddDays(d, 4) == AddDays(d1, 3) == AddDays(d2, 2) == AddDays(d3, 1) == NextDay(d3);
  }

  /** The three ways of finding the first of next month agree on every date. */
  lemma NextMonthFormsAgree(today: Date)
    requires Valid(today)
    ensures FirstByDay28(today) == FirstByDivMod(today) == PeriodEnd(today.year, today.month)
  {
    FourDaysOn(today.(day := 28));
  }

  /** What they find is the first of the month that comes next after the date. */
  lemma NextMonthIsNext(today: Date, d: Date)
    requires Valid(today) && Valid(d) && d.day == 1
    ensures Valid(FirstByDivMod(today)) && Before(today, FirstByDivMod(today))
    ensures Before(today, d) ==> d == FirstByDivMod(today) || Before(FirstByDivMod(today), d)
  {
  }

  const EPOCH := 719163

  /** `_get_start_billing_transfer_timestamp`, in seconds since 1970. */
  function StartTimestamp(today: Date): int
    requires Valid(today)
  {
    86400 * (Ordinal(FirstByDivMod(today)) - EPOCH)
  }

  /** The transfer starts later than any second of today, and within 31 days of today's midnight. */
  lemma TransferStartsNextMonth(today: Date, second: int)
    requires Valid(today) && 0 <= second < 86400
    ensures 86400 * (Ordinal(today) - EPOCH) + second < StartTimestamp(today)
         <= 86400 * (Ordinal(today) - EPOCH + 31)
  {
    NextMonthWithin(today);
    var days, first := Ordinal(today), Ordinal(FirstByDivMod(today));
    assert 86400 * (first - EPOCH) == StartTimestamp(today);
  }

  lemma NextMonthWithin(today: Date)
    requires Valid(today)
    ensures Ordinal(today) < Ordinal(FirstByDivMod(today)) <= Ordinal(today) + 31
  {
    MonthLength(today.year, today.month);
    assert FirstByDivMod(today) == PeriodEnd(today.year, today.month);
    assert Ordinal(today) == MonthStart(today.year, today.month) + today.day - 1;
  }

  /** A point in time, to the microsecond. */
  datatype Instant = Instant(date: Date, micros: int)

  const DAY_MICROS := 86_400_000_000

  predicate ValidInstant(t: Instant) {
    Valid(t.date) && 0 <= t.micros < DAY_MICROS
  }

  /** One millisecond earlier. */
  function MinusMilli(t: Instant): Instant
    requires ValidInstant(t) && t.date != Date(1, 1, 1)
  {
    if t.micros >= 1000 then t.(micros := t.micros - 1000)
    else Instant(PreviousDay(t.date), t.micros + DAY_MICROS - 1000)
  }

  /** One millisecond is a thousand microseconds on the time line, across midnight as well. */
  lemma MinusMilliSubtracts(t: Instant)
    requires ValidInstant(t) && t.date != Date(1, 1, 1)
    ensures ValidInstant(MinusMilli(t))
    ensures Ordinal(MinusMilli(t).date) * DAY_MICROS + MinusMilli(t).micros == Ordinal(t.date) * DAY_MICROS + t.micros - 1000
  {
    PreviousDayInverts(t.date);
  }

  function EndOfMonth(today: Date): Instant
    requires Valid(today)
  {
    FourDaysOn(today.(day := 28));
    MinusMilli(Instant(FirstByDay28(today), 0))
  }

  /** The end of the month is the last millisecond of the last day of today's own month. */
  lemma EndOfMonthStaysInMonth(today: Date)
    requires Valid(today)
    ensures EndOfMonth(today)
         == Instant(Date(today.year, today.month, DaysIn(today.year, today.month)), DAY_MICROS - 1000)
    ensures !Before(EndOfMonth(today).date, today)
  {
    NextMonthFormsAgree(today);
  }

  /** `BillingPeriod.last_day` of the period of a month. */
  lemma PeriodEndsInMonth(year: int, month: int)
    requires year >= 1 && 1 <= month <= 12
    ensures PreviousDay(PeriodEnd(year, month)) == Date(year, month, DaysIn(year, month))
  {
  }

  datatype Verdict = Accepted | YearTooEarly | InvalidMonth | FutureMonth | TooSoon

  const MIN_BILLING_YEAR := 2025
  const MIN_BILLING_DAY := 5

  /** `_validate_year_month`, with its errors in order. */
  function ValidateYearMonth(year: int, month: int, today: Date): Verdict {
    if year < MIN_BILLING_YEAR then YearTooEarly
    else if !(1 <= month <= 12) then InvalidMonth
    else if year > today.year || (year == today.year && month >= today.month) then FutureMonth
    else
      var (y, m) := if today.month == 1 then (today.year - 1, 12) else (today.year, today.month - 1);
      if year == y && month == m && today.day < MIN_BILLING_DAY then TooSoon else Accepted
  }

  /** A month is accepted exactly when it is valid and ended at least four full days before today. */
  lemma AcceptedMonthsHaveEnded(year: int, month: int, today: Date)
    requires Valid(today)
    ensures ValidateYearMonth(year, month, today) == Accepted <==>
            (year >= 2025 && 1 <= month <= 12 && Ordinal(PeriodEnd(year, month)) + 4 <= Ordinal(today))
  {
    MonthEndOrder(year, month, today);
  }

  /** Why a month is refused: its year, then its number, then that it has not ended, then that it has only just. */
  lemma RefusedMonths(year: int, month: int, today: Date)
    requires Valid(today)
    ensures ValidateYearMonth(year, month, today) == YearTooEarly <==> year < 2025
    ensures ValidateYearMonth(year, month, today) == InvalidMonth <==> year >= 2025 && !(1 <= month <= 12)
    ensures ValidateYearMonth(year, month, today) == FutureMonth <==>
            year >= 2025 && 1 <= month <= 12 && Ordinal(today) < Ordinal(PeriodEnd(year, month))
  {
    MonthEndOrder(year, month, today);
  }

  /** The epoch is the first day of 1970. */
  lemma EpochBegins1970()
    ensures Ordinal(Date(1970, 1, 1)) == EPOCH
  {
  }

  lemma MonthEndOrder(year: int, month: int, today: Date)
    requires Valid(today)
    ensures year >= 1 && 1 <= month <= 12 ==>
      var (y, m) := NextMonth(year, month);
      && (Ordinal(PeriodEnd(year, month)) <= Ordinal(today) <==>
            y < today.year || (y == today.year && m <= today.month))
      && ((y, m) == (today.year, today.month) ==> Ordinal(today) == Ordinal(PeriodEnd(year, month)) + today.day - 1)
      && (y < today.year || (y == today.year && m < today.month) ==> Ordinal(PeriodEnd(year, month)) + 28 <= Ordinal(today))
  {
    if year >= 1 && 1 <= month <= 12 {
      var (y, m) := NextMonth(year, month);
      assert Ordinal(today) == MonthStart(today.year, today.month) + today.day - 1;
      if (y, m) == (today.year, today.month) {
      } else if y < today.year || (y == today.year && m < today.month) {
        LaterMonthStartsLater(y, m, today.year, today.month);
      } else {
        LaterMonthStartsLater(today.year, today.month, y, m);
      }
    }
  }

  /** The month `n` months on, for up to a year. */
  function MonthOn(year: int, month: int, n: int): (int, int) {
    if month + n > 12 then (year + 1, month + n - 12) else (year, month + n)
  }

  const INACTIVITY_MONTHS := 3

  /** `relativedelta(months=3)`: three months on, the day clamped to the length of the month. */
  function AddThreeMonths(d: Date): (r: Date)
    requires Valid(d)
    ensures Valid(r)
  {
    var (y, m) := MonthOn(d.year, d.month, INACTIVITY_MONTHS);
    Date(y, m, if d.day <= DaysIn(y, m) then d.day else DaysIn(y, m))
  }

  function DaysOn(year: int, month: int, n: int): int {
    var (y, m) := MonthOn(year, month, n);
    DaysIn(y, m)
  }

  /** Any three months in a row have 89 to 92 days, and any three beginning with the next as well. */
  lemma QuarterLength(year: int, month: int)
    requires 1 <= month <= 12
    ensures 89 <= DaysOn(year, month, 0) + DaysOn(year, month, 1) + DaysOn(year, month, 2) <= 92
    ensures 89 <= DaysOn(year, month, 1) + DaysOn(year, month, 2) + DaysOn(year, month, 3) <= 92
  {
  }

  lemma NextMonthStarts(year: int, month: int, n: int)
    requires 1 <= month <= 12 && 0 <= n < 12
    ensures
      var (y, m) := MonthOn(year, month, n);
      var (y', m') := MonthOn(year, month, n + 1);
      MonthStart(y', m') == MonthStart(y, m) + DaysOn(year, month, n)
  {
    var (y, m) := MonthOn(year, month, n);
    MonthLength(y, m);
  }

  lemma QuarterStarts(year: int, month: int)
    requires 1 <= month <= 12
    ensures
      var (y, m) := MonthOn(year, month, 3);
      MonthStart(y, m) == MonthStart(year, month)
                          + DaysOn(year, month, 0) + DaysOn(year, month, 1) + DaysOn(year, month, 2)
  {
    NextMonthStarts(year, month, 0);
    NextMonthStarts(year, month, 1);
    NextMonthStarts(year, month, 2);
  }

  /** Three months are 89 to 92 days. */
  lemma ThreeMonthsLast(d: Date)
    requires Valid(d)
    ensures Ordinal(d) + 89 <= Ordinal(AddThreeMonths(d)) <= Ordinal(d) + 92
  {
    var r := AddThreeMonths(d);
    QuarterLength(d.year, d.month);
    QuarterStarts(d.year, d.month);
    assert Ordinal(r) == MonthStart(r.year, r.month) + r.day - 1;
    assert Ordinal(d) == MonthStart(d.year, d.month) + d.day - 1;
  }

  /** Both bounds are met. */
  lemma ThreeMonthsBoundsMet()
    ensures Ordinal(AddThreeMonths(Date(2025, 1, 31))) == Ordinal(Date(2025, 1, 31)) + 89
    ensures Ordinal(AddThreeMonths(Date(2025, 7, 1))) == Ordinal(Date(2025, 7, 1)) + 92
  {
    assert AddThreeMonths(Date(2025, 1, 31)) == Date(2025, 4, 30);
    MonthLength(2025, 1);
    MonthLength(2025, 2);
    MonthLength(2025, 3);
    MonthLength(2025, 7);
    MonthLength(2025, 8);
    MonthLength(2025, 9);
  }

  /** A countdown that is set later does not end earlier. */
  lemma ThreeMonthsMonotone(a: Date, b: Date)
    requires Valid(a) && Valid(b) && Ordinal(a) <= Ordinal(b)
    ensures Ordinal(AddThreeMonths(a)) <= Ordinal(AddThreeMonths(b))
  {
    OrdinalOrders(a, b);
    OrdinalOrders(AddThreeMonths(a), AddThreeMonths(b));
    OrdinalOrders(AddThreeMonths(b), AddThreeMonths(a));
  }
}
