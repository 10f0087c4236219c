/** Day numbers of the proleptic Gregorian calendar, as section 21.4.1 of ECMA-262 computes them. */
module Calendar {
  import opened Tables

  /** month is 1 to 12 in a valid date. */
  datatype Date = Date(year: int, month: int, day: int)

  predicate Leap(y: int) {
    y % 4 == 0 && (y % 100 != 0 || y % 400 == 0)
  }

  /** The first day of year y; day 0 is 1 January 1970. Division rounds down. */
  function DayFromYear(y: int): Day {
    365 * (y - 1970) + (y - 1969) / 4 - (y - 1901) / 100 + (y - 1601) / 400
  }

  lemma LeapYearsAdd(y: int)
    ensures (y - 1968) / 4 == (y - 1969) / 4 + if y % 4 == 0 then 1 else 0
    ensures (y - 1900) / 100 == (y - 1901) / 100 + if y % 100 == 0 then 1 else 0
  {}

  lemma QuadricentennialsAdd(y: int)
    ensures (y - 1600) / 400 == (y - 1601) / 400 + if y % 400 == 0 then 1 else 0
  {}

  lemma LeapRules(y: int)
    ensures y % 100 == 0 ==> y % 4 == 0
    ensures y % 400 == 0 ==> y % 100 == 0
  {}

  lemma YearLength(y: int)
    ensures DayFromYear(y + 1) == DayFromYear(y) + if Leap(y) then 366 else 365
  {
    LeapYearsAdd(y);
    QuadricentennialsAdd(y);
    LeapRules(y);
  }

  /** The days of a year before its month m, counted from 0; m == 12 gives the length of the year. */
  function DaysBefore(leap: bool, m: nat): nat
    requires m <= 12
  {
    [0, 31, 59, 90, 120, 151, 181, 212, 243, 273, 304, 334, 365][m] + if leap && m >= 2 then 1 else 0
  }

  /** The first day of a month counted from January of year 0; months run on across years. */
  function MonthStart(k: int): Day {
    DayFromYear(k / 12) + DaysBefore(Leap(k / 12), k % 12)
  }

  function MonthLength(k: int): nat {
    DaysBefore(Leap(k / 12), k % 12 + 1) - DaysBefore(Leap(k / 12), k % 12)
  }

  /** MakeDay, with month counted from 0: month and day may lie outside their ranges. */
  function MakeDay(year: int, month: int, day: int): Day {
    MonthStart(12 * year + month) + day - 1
  }

  predicate ValidDate(d: Date) {
    1 <= d.month <= 12 && 1 <= d.day <= MonthLength(MonthIndex(d))
  }

  function MonthIndex(d: Date): int {
    12 * d.year + d.month - 1
  }

  function DayOf(d: Date): Day {
    MakeDay(d.year, d.month - 1, d.day)
  }

  // ---------------------------------------------------------------- months follow each other

  lemma MonthFollows(k: int)
    ensures MonthStart(k + 1) == MonthStart(k) + MonthLength(k)
    ensures 28 <= MonthLength(k) <= 31
  {
    if k % 12 == 11 {
      assert (k + 1) / 12 == k / 12 + 1 && (k + 1) % 12 == 0;
      YearLength(k / 12);
    } else {
      assert (k + 1) / 12 == k / 12 && (k + 1) % 12 == k % 12 + 1;
    }
  }

  /** n months on is between 28n and 31n days on. */
  lemma {:induction false} MonthsApart(k: int, n: nat)
    ensures 28 * n <= MonthStart(k + n) - MonthStart(k) <= 31 * n
    decreases n
  {
    hide MonthStart, MonthLength;
    if n > 0 {
      MonthsApart(k, n - 1);
      MonthFollows(k + n - 1);
    }
  }

  // ---------------------------------------------------------------- from a day number to a date

  /** The year a day lies in, searched upwards from a year that does not start after it. */
  function YearFrom(day: Day, y: int): (r: int)
    requires DayFromYear(y) <= day
    ensures DayFromYear(r) <= day < DayFromYear(r + 1)
    decreases day - DayFromYear(y)
  {
    YearLength(y);
    if day < DayFromYear(y + 1) then y else YearFrom(day, y + 1)
  }

  /** A year that does not start after the given day. */
  function EarlyYear(day: Day): (y: int)
    ensures DayFromYear(y) <= day
  {
    var y := if day >= 0 then 1970 + day / 366 else 1970 + day / 365;
    YearStartsBy(y - 1970);
    y
  }

  lemma YearStartsBy(k: int)
    ensures DayFromYear(1970 + k) <= if k >= 0 then 366 * k else 365 * k
  {
    hide Leap;
    var fours, hundreds, quads := (k + 1) / 4, (k + 69) / 100, (k + 369) / 400;
    assert 4 * fours <= k + 1 < 4 * fours + 4 && 100 * hundreds <= k + 69 < 100 * hundreds + 100
        && 400 * quads <= k + 369 < 400 * quads + 400;
  }

  function MonthIn(leap: bool, dayOfYear: nat): (m: nat)
    requires dayOfYear < DaysBefore(leap, 12)
    ensures m < 12 && DaysBefore(leap, m) <= dayOfYear < DaysBefore(leap, m + 1)
  {
    MonthFrom(leap, dayOfYear, 0)
  }

  function MonthFrom(leap: bool, dayOfYear: nat, m: nat): (r: nat)
    requires m < 12 && DaysBefore(leap, m) <= dayOfYear < DaysBefore(leap, 12)
    ensures r < 12 && DaysBefore(leap, r) <= dayOfYear < DaysBefore(leap, r + 1)
    decreases 12 - m
  {
    if dayOfYear < DaysBefore(leap, m + 1) then m else MonthFrom(leap, dayOfYear, m + 1)
  }

  function YearOf(day: Day): (y: int)
    ensures DayFromYear(y) <= day < DayFromYear(y) + DaysBefore(Leap(y), 12)
  {
    var y := YearFrom(day, EarlyYear(day));
    YearLength(y);
    y
  }

  lemma DateInYear(y: int, m: nat, dayOfYear: nat)
    requires m < 12 && DaysBefore(Leap(y), m) <= dayOfYear < DaysBefore(Leap(y), m + 1)
    ensures var d := Date(y, m + 1, dayOfYear - DaysBefore(Leap(y), m) + 1);
      ValidDate(d) && DayOf(d) == DayFromYear(y) + dayOfYear
  {
    hide DayFromYear, DaysBefore, Leap;
    assert (12 * y + m) / 12 == y && (12 * y + m) % 12 == m;
  }

  /** getFullYear, getMonth and getDate of a day. */
  function CivilOf(day: Day): (d: Date)
    ensures ValidDate(d) && DayOf(d) == day
  {
    hide ValidDate, DayOf, DayFromYear, DaysBefore, Leap;
    var y := YearOf(day);
    var m := MonthIn(Leap(y), day - DayFromYear(y));
    DateInYear(y, m, day - DayFromYear(y));
    Date(y, m + 1, day - DayFromYear(y) - DaysBefore(Leap(y), m) + 1)
  }

  lemma {:induction false} StartsIncrease(j: int, k: int)
    requires j <= k
    ensures MonthStart(j) <= MonthStart(k)
    ensures j < k ==> MonthStart(j) + MonthLength(j) <= MonthStart(k)
    decreases k - j
  {
    hide MonthStart, MonthLength;
    if j < k {
      MonthFollows(j);
      MonthFollows(k - 1);
      StartsIncrease(j, k - 1);
    }
  }

  /** Each day has exactly one date, so dates and day numbers are interchangeable. */
  lemma DatesAreDays(d: Date)
    requires ValidDate(d)
    ensures CivilOf(DayOf(d)) == d
  {
    hide MonthStart, MonthLength, CivilOf;
    var e := CivilOf(DayOf(d));
    var j, k := MonthIndex(d), MonthIndex(e);
    if j < k {
      StartsIncrease(j, k);
    } else if k < j {
      StartsIncrease(k, j);
    }
  }

  // ---------------------------------------------------------------- adding months

  /** addMonthsISO and setMonth: the same day number in a later month, running over into the next one. */
  function AddMonths(day: Day, n: int): Day {
    var d := CivilOf(day);
    MakeDay(d.year, d.month - 1 + n, d.day)
  }

  /** Where n months lead: the same day of the target month if it has one, else into the month after. */
  lemma AddMonthsLands(day: Day, n: int)
    ensures var from, to := CivilOf(day), CivilOf(AddMonths(day, n));
      var target := MonthIndex(from) + n;
      if from.day <= MonthLength(target)
      then MonthIndex(to) == target && to.day == from.day
      else MonthIndex(to) == target + 1 && to.day == from.day - MonthLength(target)
  {
    hide MonthStart, MonthLength, CivilOf;
    var from := CivilOf(day);
    var target := MonthIndex(from) + n;
    MonthFollows(target);
    MonthFollows(target + 1);
    var k, d := if from.day <= MonthLength(target) then target else target + 1,
                if from.day <= MonthLength(target) then from.day else from.day - MonthLength(target);
    assert MonthLength(MonthIndex(from)) <= 31 by { MonthFollows(MonthIndex(from)); }
    var to := Date(k / 12, k % 12 + 1, d);
    assert MonthIndex(to) == k;
    DatesAreDays(to);
  }

  /** A stay of at least one month ends after it starts: between 28 and 31 days later per month. */
  lemma StayEndsAfterStart(day: Day, n: nat)
    ensures day + 28 * n <= AddMonths(day, n) <= day + 31 * n
  {
    hide MonthStart, CivilOf;
    MonthsApart(MonthIndex(CivilOf(day)), n);
  }

  /** Starting one day later ends no later exactly when the stay starts on the last day of a month longer than the
      month n months on. */
  lemma LaterStartEndsNoLater(day: Day, n: int)
    ensures var d := CivilOf(day); var k := MonthIndex(d);
      AddMonths(day + 1, n) <= AddMonths(day, n) <==> d.day == MonthLength(k) && MonthLength(k + n) < MonthLength(k)
  {
    hide MonthStart, MonthLength, CivilOf;
    var d := CivilOf(day);
    var k := MonthIndex(d);
    MonthFollows(k);
    MonthFollows(k + 1);
    MonthFollows(k + n);
    if d.day < MonthLength(k) {
      DatesAreDays(d.(day := d.day + 1));
    } else {
      var e := Date((k + 1) / 12, (k + 1) % 12 + 1, 1);
      assert MonthIndex(e) == k + 1;
      DatesAreDays(e);
    }
  }

  /** In 2023, one month from 31 January is 3 March, but from 1 February it is 1 March. */
  lemma EndNotMonotone()
    ensures var a, b := DayOf(Date(2023, 1, 31)), DayOf(Date(2023, 2, 1));
      && a < b && AddMonths(a, 1) == DayOf(Date(2023, 3, 3)) && AddMonths(b, 1) == DayOf(Date(2023, 3, 1))
      && AddMonths(b, 1) < AddMonths(a, 1)
  {
    Early2023();
    hide MonthStart, MonthLength, CivilOf;
    MonthFollows(24276);
    MonthFollows(24277);
    DatesAreDays(Date(2023, 1, 31));
    DatesAreDays(Date(2023, 2, 1));
  }

  lemma Early2023()
    ensures MonthLength(24276) == 31 && MonthLength(24277) == 28
  {
    assert 24276 / 12 == 2023 && 24276 % 12 == 0 && 24277 / 12 == 2023 && 24277 % 12 == 1;
    assert !Leap(2023);
    hide Leap;
  }
}
