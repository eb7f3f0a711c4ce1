/**
 * Civil calendar arithmetic of the projection engine: month lengths, the
 * clamped day of a recurring rule, the month-stepping pointer and the adding of
 * whole days. Dates are proleptic Gregorian (year, month, day) triples compared
 * lexicographically, as the date type the engine uses compares them.
 */
module Calendar {
  import opened Wrappers
  import opened StableSort

  /** An unsigned 8-bit integer: the width of a rule's day-of-month. */
  type U8 = x: int | 0 <= x < 256

  datatype YearMonthDay = YMD(year: int, month: int, day: int)

  predicate IsLeapYear(year: int) {
    year % 4 == 0 && (year % 100 != 0 || year % 400 == 0)
  }

  /** The Gregorian length of a month. */
  function DaysInMonth(year: int, month: int): (n: int)
    requires 1 <= month <= 12
    ensures 28 <= n <= 31
    ensures n == 31 <==> month in {1, 3, 5, 7, 8, 10, 12}
    ensures n == 30 <==> month in {4, 6, 9, 11}
    ensures month == 2 ==> (n == 29 <==> IsLeapYear(year)) && (n == 28 <==> !IsLeapYear(year))
  {
    if month == 2 then (if IsLeapYear(year) then 29 else 28)
    else if month == 4 || month == 6 || month == 9 || month == 11 then 30
    else 31
  }

  lemma DaysInMonthExamples()
    ensures DaysInMonth(2025, 1) == 31 && DaysInMonth(2025, 2) == 28
    ensures DaysInMonth(2024, 2) == 29 && DaysInMonth(2025, 4) == 30
  {
  }

  predicate IsValidDate(d: YearMonthDay) {
    1 <= d.month <= 12 && 1 <= d.day <= DaysInMonth(d.year, d.month)
  }

  /** A calendar date that exists. */
  type Date = d: YearMonthDay | IsValidDate(d) witness YMD(1970, 1, 1)

  /** The date with the given parts, or None when no such date exists. */
  function FromYmd(year: int, month: int, day: int): (r: Option<Date>)
    ensures r.Some? <==> 1 <= month <= 12 && 1 <= day && day <= DaysInMonth(year, month)
    ensures r.Some? ==> r.value == YMD(year, month, day)
  {
    if 1 <= month <= 12 && 1 <= day <= DaysInMonth(year, month) then Some(YMD(year, month, day)) else None
  }

  /** Chronological order: a is strictly earlier than b. */
  predicate Before(a: Date, b: Date) {
    a.year < b.year || (a.year == b.year && (a.month < b.month || (a.month == b.month && a.day < b.day)))
  }

  /** a is b or earlier than b. */
  predicate NotAfter(a: Date, b: Date) {
    !Before(b, a)
  }

  lemma BeforeIsStrictTotalOrder(a: Date, b: Date, c: Date)
    ensures !Before(a, a)
    ensures Before(a, b) && Before(b, c) ==> Before(a, c)
    ensures a == b || Before(a, b) || Before(b, a)
    ensures NotAfter(a, b) <==> a == b || Before(a, b)
  {
  }

  /** The same, in the form the sort asks of a key order. */
  lemma BeforeIsOrder()
    ensures IsStrictTotalOrder(Before)
  {
    forall a: Date, b: Date, c: Date ensures Before(a, b) && Before(b, c) ==> Before(a, c) {
      BeforeIsStrictTotalOrder(a, b, c);
    }
    forall a: Date, b: Date ensures a == b || Before(a, b) || Before(b, a) {
      BeforeIsStrictTotalOrder(a, b, b);
    }
  }

  function Min(a: int, b: int): int {
    if a <= b then a else b
  }

  /** Months counted from January of year 0: consecutive months have consecutive indices. */
  function MonthIndex(d: Date): int {
    d.year * 12 + d.month - 1
  }

  /** The first day of the month with index k. */
  function MonthStart(k: int): (r: Date)
    ensures MonthIndex(r) == k && r.day == 1
  {
    YMD(k / 12, k % 12 + 1, 1)
  }

  /** Dates in different months are ordered as their months are. */
  lemma MonthIndexOrder(a: Date, b: Date)
    ensures MonthIndex(a) < MonthIndex(b) ==> Before(a, b)
    ensures Before(a, b) ==> MonthIndex(a) <= MonthIndex(b)
    ensures MonthIndex(a) == MonthIndex(b) <==> a.year == b.year && a.month == b.month
  {
  }

  /**
   * The date on which a rule with the given day-of-month falls in the month
   * of baseDate: the day itself when the month has it, otherwise the month's
   * last day. A day-of-month of 0 names no date.
   */
  function TransactionDateInMonth(baseDate: Date, dayOfMonth: U8): (r: Option<Date>)
    ensures r.Some? <==> dayOfMonth >= 1
    ensures r.Some? ==> r.value.year == baseDate.year && r.value.month == baseDate.month
    ensures r.Some? && dayOfMonth <= DaysInMonth(baseDate.year, baseDate.month) ==> r.value.day == dayOfMonth
    ensures r.Some? && dayOfMonth > DaysInMonth(baseDate.year, baseDate.month) ==>
      r.value.day == DaysInMonth(baseDate.year, baseDate.month)
  {
    var year := baseDate.year;
    var month := baseDate.month;
    var daysInMonth := DaysInMonth(year, month);
    var actualDay := Min(dayOfMonth, daysInMonth);
    FromYmd(year, month, actualDay)
  }

  /** The day of d is where a rule with the given day-of-month falls in d's month. */
  predicate IsClampedDay(d: Date, dayOfMonth: int) {
    dayOfMonth >= 1 && d.day == Min(dayOfMonth, DaysInMonth(d.year, d.month))
  }

  lemma TransactionDateExamples()
    ensures TransactionDateInMonth(YMD(2025, 2, 15), 14) == Some(YMD(2025, 2, 14))
    ensures TransactionDateInMonth(YMD(2025, 2, 15), 31) == Some(YMD(2025, 2, 28))
    ensures TransactionDateInMonth(YMD(2024, 2, 15), 31) == Some(YMD(2024, 2, 29))
    ensures TransactionDateInMonth(YMD(2025, 2, 15), 0) == None
  {
  }

  /**
   * The clamped date is the latest day of the month not after the target
   * day, and it is the only date of that month on which the rule falls.
   */
  lemma TransactionDateIsLatestNotAfterTarget(baseDate: Date, dayOfMonth: U8, d: Date)
    requires d.year == baseDate.year && d.month == baseDate.month
    ensures TransactionDateInMonth(baseDate, dayOfMonth) == Some(d) <==> IsClampedDay(d, dayOfMonth)
    ensures TransactionDateInMonth(baseDate, dayOfMonth) == Some(d) ==>
      d.day <= dayOfMonth && forall day :: d.day < day <= dayOfMonth ==> FromYmd(d.year, d.month, day).None?
  {
  }

  /**
   * The month-stepping pointer: the same day of the following month, or the
   * first of the following month when that month is too short.
   */
  function NextMonth(date: Date): (r: Date)
    ensures MonthIndex(r) == MonthIndex(date) + 1
    ensures date.day <= DaysInMonth(r.year, r.month) ==> r.day == date.day
    ensures date.day > DaysInMonth(r.year, r.month) ==> r.day == 1
  {
    var year := date.year;
    var month := date.month;
    var day := date.day;
    if month == 12 then
      // January has every day a date can have, so the first of January
      // is never needed here; it mirrors the fallback of the other months
      var firstOfJanuary: Date := YMD(year + 1, 1, 1);
      match FromYmd(year + 1, 1, day)
      case Some(d) => d
      case None => firstOfJanuary
    else
      var firstOfNext: Date := YMD(year, month + 1, 1);
      match FromYmd(year, month + 1, day)
      case Some(d) => d
      case None => firstOfNext
  }

  /** The pointer after n steps. */
  function NextMonthIterated(date: Date, n: nat): Date
    decreases n
  {
    if n == 0 then date else NextMonthIterated(NextMonth(date), n - 1)
  }

  /** Stepping the pointer n times lands exactly n months later: no month is skipped or repeated. */
  lemma {:induction false} NextMonthVisitsEveryMonth(date: Date, n: nat)
    ensures MonthIndex(NextMonthIterated(date, n)) == MonthIndex(date) + n
    decreases n
  {
    if n > 0 {
      NextMonthVisitsEveryMonth(NextMonth(date), n - 1);
    }
  }

  function NextDay(d: Date): (r: Date)
    ensures Before(d, r)
    ensures forall e: Date :: Before(d, e) ==> NotAfter(r, e)
  {
    if d.day < DaysInMonth(d.year, d.month) then YMD(d.year, d.month, d.day + 1)
    else if d.month < 12 then YMD(d.year, d.month + 1, 1)
    else YMD(d.year + 1, 1, 1)
  }

  function PrevDay(d: Date): (r: Date)
    ensures Before(r, d)
    ensures forall e: Date :: Before(e, d) ==> NotAfter(e, r)
  {
    if d.day > 1 then YMD(d.year, d.month, d.day - 1)
    else if d.month > 1 then YMD(d.year, d.month - 1, DaysInMonth(d.year, d.month - 1))
    else YMD(d.year - 1, 12, 31)
  }

  /** The last day of a month is the day before the first of the next month. */
  lemma DaysInMonthIsDayBeforeNextFirst(year: int, month: int)
    requires 1 <= month <= 12
    ensures var nextFirst: Date := if month == 12 then YMD(year + 1, 1, 1) else YMD(year, month + 1, 1);
      PrevDay(nextFirst) == YMD(year, month, DaysInMonth(year, month))
  {
  }

  lemma NextDayPrevDayInverse(d: Date)
    ensures PrevDay(NextDay(d)) == d
    ensures NextDay(PrevDay(d)) == d
  {
  }

  /** The date n days after d (before d when n is negative). */
  function AddDays(d: Date, n: int): (r: Date)
    ensures n > 0 ==> Before(d, r)
    ensures n < 0 ==> Before(r, d)
    ensures n == 0 <==> r == d
    decreases if n < 0 then -n else n
  {
    if n == 0 then d
    else if n > 0 then AddDays(NextDay(d), n - 1)
    else AddDays(PrevDay(d), n + 1)
  }

  /** Starting a day later is adding one more day. */
  lemma AddDaysFromNextDay(d: Date, n: int)
    ensures AddDays(NextDay(d), n) == AddDays(d, n + 1)
  {
    if n < 0 {
      NextDayPrevDayInverse(d);
    }
  }

  /** Starting a day earlier is adding one day less. */
  lemma AddDaysFromPrevDay(d: Date, n: int)
    ensures AddDays(PrevDay(d), n) == AddDays(d, n - 1)
  {
    if n > 0 {
      NextDayPrevDayInverse(d);
    }
  }

  /**
   * Adding days composes, and one day is one step of NextDay or PrevDay, so
   * AddDays(d, n) is exactly the date n days from d.
   */
  lemma {:induction false} AddDaysAdd(d: Date, a: int, b: int)
    ensures AddDays(AddDays(d, a), b) == AddDays(d, a + b)
    decreases if a < 0 then -a else a
  {
    if a > 0 {
      AddDaysAdd(NextDay(d), a - 1, b);
      AddDaysFromNextDay(d, a - 1 + b);
    } else if a < 0 {
      AddDaysAdd(PrevDay(d), a + 1, b);
      AddDaysFromPrevDay(d, a + 1 + b);
    }
  }

  /** Each further day is the next day; each day less is the previous one. */
  lemma AddDaysSteps(d: Date, n: int)
    ensures AddDays(d, 1) == NextDay(d) && AddDays(d, -1) == PrevDay(d)
    ensures AddDays(d, n + 1) == NextDay(AddDays(d, n))
    ensures AddDays(d, n - 1) == PrevDay(AddDays(d, n))
  {
    AddDaysAdd(d, n, 1);
    AddDaysAdd(d, n, -1);
  }
}
