/**
 * The calendar helpers of src/utils/date.ts. A `Date` is a local-time instant:
 * a day number (0 is Thursday 1970-01-01) and the milliseconds elapsed in that
 * day; an invalid or absent date is `None`. Time zones and daylight saving are
 * not modelled: every day has 86400000 ms.
 */
module Dates {
  import opened Wrappers
  import Civil

  const MsPerDay := 86400000
  const LastMsOfDay := 86399999

  type MsOfDay = x: int | 0 <= x < 86400000

  datatype Instant = Instant(day: int, ms: MsOfDay)

  /** `getTime()`: milliseconds since the epoch. */
  function Time(i: Instant): int {
    i.day * MsPerDay + i.ms
  }

  /** `getDay()`: 0 is Sunday, 1 is Monday, ..., 6 is Saturday. */
  function Weekday(day: int): int {
    (day + 4) % 7
  }

  function Year(i: Instant): int { Civil.FromDays(i.day).year }
  function Month(i: Instant): nat { Civil.FromDays(i.day).month }
  function DayOfMonth(i: Instant): nat { Civil.FromDays(i.day).dayOfMonth }

  /** `startOfWeek`: midnight of the Monday on or before `d`. */
  function StartOfWeek(d: Instant): (s: Instant)
    ensures s.ms == 0 && Weekday(s.day) == 1
    ensures d.day - 6 <= s.day <= d.day
  {
    Instant(d.day - (Weekday(d.day) + 6) % 7, 0)
  }

  /** `endOfWeek`: the last millisecond of the Sunday closing the week of `d`. */
  function EndOfWeek(d: Instant): (e: Instant)
    ensures e.day == StartOfWeek(d).day + 6 && e.ms == LastMsOfDay
    ensures Weekday(e.day) == 0
    ensures Time(d) <= Time(e)
  {
    Instant(StartOfWeek(d).day + 6, LastMsOfDay)
  }

  /** `isSameDay(a, b)`: false when either is absent, else same year, month and day of month. */
  predicate IsSameDay(a: Option<Instant>, b: Option<Instant>): (r: bool)
    ensures r ==> a.Some? && b.Some? && a.value.day == b.value.day
  {
    a.Some? && b.Some?
    && Year(a.value) == Year(b.value)
    && Month(a.value) == Month(b.value)
    && DayOfMonth(a.value) == DayOfMonth(b.value)
  }

  /** `isSameWeek(a, b)`: false when either is absent, else `a` lies in the closed week window of `b`. */
  predicate IsSameWeek(a: Option<Instant>, b: Option<Instant>): (r: bool)
    ensures r ==> a.Some? && b.Some? && StartOfWeek(b.value).day <= a.value.day <= StartOfWeek(b.value).day + 6
  {
    a.Some? && b.Some?
    && Time(StartOfWeek(b.value)) <= Time(a.value) <= Time(EndOfWeek(b.value))
  }

  /** `isSameMonth(a, b)`: false when either is absent, else same year and month. */
  predicate IsSameMonth(a: Option<Instant>, b: Option<Instant>): (r: bool)
    ensures r ==> a.Some? && b.Some? && a.value.day - b.value.day == DayOfMonth(a.value) - DayOfMonth(b.value)
  {
    a.Some? && b.Some?
    && Year(a.value) == Year(b.value)
    && Month(a.value) == Month(b.value)
  }

  /** All three predicates reject an absent date on either side. */
  lemma AbsentNeverMatches(a: Option<Instant>, b: Option<Instant>)
    requires a.None? || b.None?
    ensures !IsSameDay(a, b) && !IsSameWeek(a, b) && !IsSameMonth(a, b)
  {
  }

  /** Two instants are on the same calendar day exactly when their day numbers agree. */
  lemma SameDayIsSameDayNumber(a: Instant, b: Instant)
    ensures IsSameDay(Some(a), Some(b)) <==> a.day == b.day
  {
    if IsSameDay(Some(a), Some(b)) {
      Civil.FromDaysInjective(a.day, b.day);
    }
  }

  /** `a` is in the week window of `b` exactly when both weeks start on the same Monday. */
  lemma SameWeekIsSameMonday(a: Instant, b: Instant)
    ensures IsSameWeek(Some(a), Some(b)) <==> StartOfWeek(a) == StartOfWeek(b)
  {
    var s := StartOfWeek(b).day;
    assert IsSameWeek(Some(a), Some(b)) <==> s <= a.day <= s + 6;
    assert StartOfWeek(a).day == a.day - (a.day + 3) % 7;
    MondayWindow(s, a.day);
  }

  /** A day lies in the seven days from Monday `s` exactly when its own week starts at `s`. */
  lemma MondayWindow(s: int, d: int)
    requires Weekday(s) == 1
    ensures s <= d <= s + 6 <==> d - (d + 3) % 7 == s
  {
    var q := (s + 4) / 7;
    assert s + 3 == 7 * q;
    if s <= d <= s + 6 {
      assert d + 3 == 7 * q + (d - s);
    }
  }

  /** Being in the same Monday-start week is symmetric. */
  lemma SameWeekSymmetric(a: Option<Instant>, b: Option<Instant>)
    ensures IsSameWeek(a, b) <==> IsSameWeek(b, a)
  {
    if a.Some? && b.Some? {
      SameWeekIsSameMonday(a.value, b.value);
      SameWeekIsSameMonday(b.value, a.value);
    }
  }

  /** The same calendar day lies in the same week and in the same month. */
  lemma SameDayImpliesSameWeekAndMonth(a: Option<Instant>, b: Option<Instant>)
    requires IsSameDay(a, b)
    ensures IsSameWeek(a, b) && IsSameMonth(a, b)
  {
    SameDayIsSameDayNumber(a.value, b.value);
  }

  /**
   * A mutable JavaScript `Date`, with the two setters `startOfWeek` and
   * `endOfWeek` use. Both roll over into neighbouring days and months the way
   * JavaScript does.
   */
  class Date {
    var day: int
    var ms: MsOfDay

    /** `new Date(d)`: a copy of `d`. */
    constructor (d: Instant)
      ensures Value() == d
    {
      day, ms := d.day, d.ms;
    }

    function Value(): Instant
      reads this
    {
      Instant(day, ms)
    }

    function GetDay(): int
      reads this
    {
      Weekday(day)
    }

    function GetDate(): nat
      reads this
    {
      DayOfMonth(Value())
    }

    /** `setHours(h, m, s, ms)`: the clock is reset from midnight of the same day; overflow moves across days. */
    method SetHours(hours: int, minutes: int, seconds: int, millis: int)
      modifies this
      ensures Time(Value()) == old(day) * MsPerDay + hours * 3600000 + minutes * 60000 + seconds * 1000 + millis
    {
      var clock := hours * 3600000 + minutes * 60000 + seconds * 1000 + millis;
      day, ms := day + clock / MsPerDay, clock % MsPerDay;
    }

    /** `setDate(n)`: day `n` of the current month, counting past either end of the month. */
    method SetDate(dayOfMonth: int)
      modifies this
      ensures day == old(day) - old(GetDate()) + dayOfMonth && ms == old(ms)
    {
      day := day - GetDate() + dayOfMonth;
    }
  }

  /** `startOfWeek` as written: copy, truncate to midnight, step back to Monday. */
  method NewStartOfWeek(d: Instant) returns (date: Date)
    ensures fresh(date) && date.Value() == StartOfWeek(d)
  {
    date := new Date(d);
    var back := (date.GetDay() + 6) % 7;
    date.SetHours(0, 0, 0, 0);
    date.SetDate(date.GetDate() - back);
  }

  /** `endOfWeek` as written: six days after the start, then 23:59:59.999. */
  method NewEndOfWeek(d: Instant) returns (date: Date)
    ensures fresh(date) && date.Value() == EndOfWeek(d)
  {
    var start := NewStartOfWeek(d);
    date := new Date(start.Value());
    date.SetDate(start.GetDate() + 6);
    date.SetHours(23, 59, 59, 999);
  }
}
