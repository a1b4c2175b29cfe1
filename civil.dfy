/**
 * The proleptic Gregorian calendar read off a day number (day 0 is 1970-01-01),
 * as `Date.prototype.getFullYear`, `getMonth` and `getDate` report it.
 * Days are split into 400-year cycles of 146097 days starting on 1 January of
 * a year divisible by 400; inside a cycle whole years, then whole months, are
 * counted off.
 */
module Civil {

  const DaysPerCycle := 146097
  /** Days from 0000-01-01 to 1970-01-01. */
  const DaysBeforeEpoch := 719528

  predicate IsLeap(y: int) {
    y % 4 == 0 && (y % 100 != 0 || y % 400 == 0)
  }

  function YearLength(y: int): int {
    if IsLeap(y) then 366 else 365
  }

  /** Length of month `m` (0 = January, as `getMonth` counts). */
  function MonthLength(m: nat, leap: bool): int {
    if m == 1 then (if leap then 29 else 28)
    else if m == 3 || m == 5 || m == 8 || m == 10 then 30
    else 31
  }

  /** Days in the years [0, y) of a cycle. */
  function DaysBeforeYear(y: nat): nat {
    if y == 0 then 0 else DaysBeforeYear(y - 1) + YearLength(y - 1)
  }

  /** Days in the months [0, m) of a year. */
  function DaysBeforeMonth(m: nat, leap: bool): nat {
    if m == 0 then 0 else DaysBeforeMonth(m - 1, leap) + MonthLength(m - 1, leap)
  }

  /** Counts off whole years from year `y`: returns the year and the day within it. */
  function YearWalk(rest: nat, y: nat): (r: (nat, nat))
    ensures DaysBeforeYear(y) + rest == DaysBeforeYear(r.0) + r.1
    ensures y <= r.0 && r.1 < YearLength(r.0)
    decreases rest
  {
    if rest < YearLength(y) then (y, rest) else YearWalk(rest - YearLength(y), y + 1)
  }

  /** Counts off whole months from month `m`, stopping at December. */
  function MonthWalk(rest: nat, m: nat, leap: bool): (r: (nat, nat))
    requires m <= 11
    ensures DaysBeforeMonth(m, leap) + rest == DaysBeforeMonth(r.0, leap) + r.1
    ensures m <= r.0 <= 11
    ensures DaysBeforeMonth(m, leap) + rest < (if leap then 366 else 365) ==> r.1 < MonthLength(r.0, leap)
    decreases rest
  {
    if m == 11 || rest < MonthLength(m, leap) then
      DaysBeforeDecember(leap);
      (m, rest)
    else MonthWalk(rest - MonthLength(m, leap), m + 1, leap)
  }

  /** January to November hold 334 days, 335 in a leap year. */
  lemma DaysBeforeDecember(leap: bool)
    ensures DaysBeforeMonth(11, leap) == if leap then 335 else 334
  {
    var f := if leap then 1 else 0;
    assert DaysBeforeMonth(1, leap) == 31;
    assert DaysBeforeMonth(2, leap) == 59 + f;
    assert DaysBeforeMonth(3, leap) == 90 + f;
    assert DaysBeforeMonth(4, leap) == 120 + f;
    assert DaysBeforeMonth(5, leap) == 151 + f;
    assert DaysBeforeMonth(6, leap) == 181 + f;
    assert DaysBeforeMonth(7, leap) == 212 + f;
    assert DaysBeforeMonth(8, leap) == 243 + f;
    assert DaysBeforeMonth(9, leap) == 273 + f;
    assert DaysBeforeMonth(10, leap) == 304 + f;
  }

  datatype CivilDate = CivilDate(year: int, month: nat, dayOfMonth: nat)

  /** The calendar date of a day number. */
  function FromDays(day: int): (c: CivilDate)
    ensures c.month <= 11 && 1 <= c.dayOfMonth <= MonthLength(c.month, IsLeap(c.year))
    ensures day + DaysBeforeEpoch
         == (c.year / 400) * DaysPerCycle + DaysBeforeYear(c.year % 400)
            + DaysBeforeMonth(c.month, IsLeap(c.year)) + c.dayOfMonth - 1
  {
    var z := day + DaysBeforeEpoch;
    var cycle := z / DaysPerCycle;
    var (yearInCycle, dayOfYear) := YearWalk(z % DaysPerCycle, 0);
    var (month, dayInMonth) := MonthWalk(dayOfYear, 0, IsLeap(yearInCycle));
    YearInCycleBound(z % DaysPerCycle);
    CycleSplit(cycle, yearInCycle);
    CivilDate(cycle * 400 + yearInCycle, month, dayInMonth + 1)
  }

  /** A year splits into its 400-year cycle and its place in it, and leap years repeat every cycle. */
  lemma CycleSplit(cycle: int, y: nat)
    requires y < 400
    ensures (cycle * 400 + y) / 400 == cycle && (cycle * 400 + y) % 400 == y
    ensures IsLeap(cycle * 400 + y) == IsLeap(y)
  {
    var n := cycle * 400 + y;
    QuotientOf(n, 400, cycle, y);
    ShiftKeepsRemainder(cycle * 100, 4, y);
    ShiftKeepsRemainder(cycle * 4, 100, y);
    ShiftKeepsRemainder(cycle, 400, y);
  }

  /** Adding a multiple of `k` leaves the remainder modulo `k` unchanged. */
  lemma ShiftKeepsRemainder(m: int, k: nat, y: nat)
    requires k > 0
    ensures (m * k + y) % k == y % k
  {
    var q, r := y / k, y % k;
    assert m * k + y == (m + q) * k + r;
    QuotientOf(m * k + y, k, m + q, r);
  }

  /** Moving the numerator up by a whole divisor adds one to the quotient exactly at multiples. */
  lemma NextQuotient(p: nat, k: nat)
    requires k > 0
    ensures (p + k) / k == (p + k - 1) / k + (if p % k == 0 then 1 else 0)
  {
    var q, r := p / k, p % k;
    assert p + k == (q + 1) * k + r;
    QuotientOf(p + k, k, q + 1, r);
    if r == 0 {
      assert p + k - 1 == q * k + (k - 1);
      QuotientOf(p + k - 1, k, q, k - 1);
    } else {
      assert p + k - 1 == (q + 1) * k + (r - 1);
      QuotientOf(p + k - 1, k, q + 1, r - 1);
    }
  }

  lemma QuotientOf(n: int, k: int, q: int, r: int)
    requires k > 0 && 0 <= r < k && n == q * k + r
    ensures n / k == q
  {
    var q', r' := n / k, n % k;
    assert (q - q') * k == r' - r;
    if q > q' {
      MultipleAtLeast(q - q', k);
    } else if q < q' {
      MultipleAtLeast(q' - q, k);
    }
  }

  lemma {:induction false} MultipleAtLeast(d: nat, k: int)
    requires d >= 1 && k > 0
    ensures d * k >= k
  {
    if d > 1 {
      MultipleAtLeast(d - 1, k);
      assert d * k == (d - 1) * k + k;
    }
  }

  /** A year divisible by 400 is divisible by 100, and one divisible by 100 is divisible by 4. */
  lemma DivisibilityChain(p: nat)
    ensures p % 400 == 0 ==> p % 100 == 0
    ensures p % 100 == 0 ==> p % 4 == 0
  {
    if p % 400 == 0 {
      assert p == (p / 400) * 100 * 4;
      QuotientOf(p, 100, (p / 400) * 4, 0);
    }
    if p % 100 == 0 {
      assert p == (p / 100) * 25 * 4;
      QuotientOf(p, 4, (p / 100) * 25, 0);
    }
  }

  lemma {:induction false} DaysBeforeYearClosedForm(y: nat)
    ensures DaysBeforeYear(y) == 365 * y + (y + 3) / 4 - (y + 99) / 100 + (y + 399) / 400
  {
    if y > 0 {
      DaysBeforeYearClosedForm(y - 1);
      var p := y - 1;
      NextQuotient(p, 4);
      NextQuotient(p, 100);
      NextQuotient(p, 400);
      DivisibilityChain(p);
    }
  }

  lemma {:induction false} DaysBeforeYearMonotone(a: nat, b: nat)
    requires a <= b
    ensures DaysBeforeYear(a) <= DaysBeforeYear(b)
  {
    if a < b {
      DaysBeforeYearMonotone(a, b - 1);
    }
  }

  /** A day of a cycle falls in one of its 400 years. */
  lemma YearInCycleBound(doc: nat)
    requires doc < DaysPerCycle
    ensures YearWalk(doc, 0).0 < 400
  {
    var y := YearWalk(doc, 0).0;
    if y >= 400 {
      DaysBeforeYearClosedForm(400);
      DaysBeforeYearMonotone(400, y);
      assert false;
    }
  }

  /** Year, month and day of the month determine the day number. */
  lemma FromDaysInjective(d1: int, d2: int)
    requires FromDays(d1) == FromDays(d2)
    ensures d1 == d2
  {
    var z1, z2 := d1 + DaysBeforeEpoch, d2 + DaysBeforeEpoch;
    var c1, c2 := z1 / DaysPerCycle, z2 / DaysPerCycle;
    var o1, o2 := z1 % DaysPerCycle, z2 % DaysPerCycle;
    var (y1, r1) := YearWalk(o1, 0);
    var (y2, r2) := YearWalk(o2, 0);
    YearInCycleBound(o1);
    YearInCycleBound(o2);
    assert c1 * 400 + y1 == c2 * 400 + y2;
    assert c1 == c2 && y1 == y2;
    var (m1, s1) := MonthWalk(r1, 0, IsLeap(y1));
    var (m2, s2) := MonthWalk(r2, 0, IsLeap(y2));
    assert m1 == m2 && s1 == s2;
    assert r1 == r2;
    assert o1 == o2;
    assert z1 == c1 * DaysPerCycle + o1 && z2 == c2 * DaysPerCycle + o2;
  }

  /** 2000-01-01 starts a cycle; it was day 10957. */
  lemma CycleStartExample()
    ensures FromDays(10957) == CivilDate(2000, 0, 1)
  {
  }

  /** Day 11017 is 1 March 2000, after the 29 days of a leap February. */
  lemma LeapFebruaryExample()
    ensures FromDays(11016) == CivilDate(2000, 1, 29)
    ensures FromDays(11017) == CivilDate(2000, 2, 1)
  {
    assert (11016 + DaysBeforeEpoch) % DaysPerCycle == 59;
    assert YearWalk(59, 0) == (0, 59);
    assert MonthWalk(28, 1, true) == (1, 28);
    assert MonthWalk(59, 0, true) == (1, 28);
    assert YearWalk(60, 0) == (0, 60);
    assert MonthWalk(29, 1, true) == (2, 0);
    assert MonthWalk(60, 0, true) == (2, 0);
  }
}
