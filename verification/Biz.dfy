/** Easter, the nationwide holidays around it, and the deadlines built on them. Days are counted from 1 January 1970. */
module Biz {
  // ---------- the Gregorian calendar ----------

  predicate Leap(y: int) { y % 4 == 0 && (y % 100 != 0 || y % 400 == 0) }

  function LeapDay(y: int): int { if Leap(y) then 1 else 0 }

  /** The day number of 1 January. */
  function YearStart(y: int): int { 365 * (y - 1) + (y - 1) / 4 - (y - 1) / 100 + (y - 1) / 400 - 719162 }

  /** How many days of the year come before a month, in a common year. */
  function Before(m: int): int {
    if m <= 1 then 0 else if m == 2 then 31 else if m == 3 then 59 else if m == 4 then 90 else if m == 5 then 120
      else if m == 6 then 151
    else if m == 7 then 181 else if m == 8 then 212 else if m == 9 then 243 else if m == 10 then 273
      else if m == 11 then 304 else 334
  }

  function DayNumber(y: int, m: int, d: int): int {
    YearStart(y) + Before(m) + (if m > 2 then LeapDay(y) else 0) + d - 1
  }

  lemma NextYear(y: int)
    ensures YearStart(y + 1) == YearStart(y) + 365 + LeapDay(y)
  {
    Quarter(y, 4);
    Quarter(y, 100);
    Quarter(y, 400);
    LeapBy(y);
  }

  lemma Quarter(y: int, n: int)
    requires n in {4, 100, 400}
    ensures y / n == (y - 1) / n + if y % n == 0 then 1 else 0
  {
  }

  lemma LeapBy(y: int)
    ensures LeapDay(y) == (if y % 4 == 0 then 1 else 0) - (if y % 100 == 0 then 1 else 0) + if y % 400 == 0 then 1
      else 0
  {
    Hundreds(y);
  }

  lemma Hundreds(y: int)
    ensures (y % 400 == 0 ==> y % 100 == 0) && (y % 100 == 0 ==> y % 4 == 0)
  {
    if y % 400 == 0 { Multiple(y, 100, y / 400 * 4); }
    if y % 100 == 0 { Multiple(y, 4, y / 100 * 25); }
  }

  lemma Multiple(y: int, n: int, q: int)
    requires n in {4, 100} && y == n * q
    ensures y % n == 0
  {
  }

  const FIRST: int := -141349

  /** The year a day falls in, looking from year y on. */
  function YearFrom(day: int, y: int): (r: int)
    requires YearStart(y) <= day
    ensures r >= y && YearStart(r) <= day < YearStart(r + 1)
    decreases day - YearStart(y)
  {
    NextYear(y);
    if day < YearStart(y + 1) then y else YearFrom(day, y + 1)
  }

  lemma FirstDay1583()
    ensures YearStart(1583) == FIRST
  {
  }

  function YearOf(day: int): (y: int)
    requires day >= FIRST
    ensures y >= 1583 && YearStart(y) <= day < YearStart(y + 1)
  {
    FirstDay1583();
    YearFrom(day, 1583)
  }

  lemma {:induction false} YearsGrow(y: int, z: int)
    requires y <= z
    ensures YearStart(y) <= YearStart(z)
    decreases z - y
  {
    if y < z {
      YearsGrow(y, z - 1);
      NextYear(z - 1);
    }
  }

  /** A day belongs to one year only. */
  lemma OneYear(day: int, y: int)
    requires day >= FIRST && YearStart(y) <= day < YearStart(y + 1)
    ensures YearOf(day) == y
  {
    var r := YearOf(day);
    if r < y { YearsGrow(r + 1, y); }
    if y < r { YearsGrow(y + 1, r); }
  }

  /** Sunday is 0. */
  function Weekday(day: int): (w: int)
    ensures 0 <= w < 7
  {
    (day + 4) % 7
  }

  // ---------- Easter ----------

  /** How many days after 22 March. */
  function AfterMarch22(y: int): int
    requires y >= 0
  {
    var a, b, c := y % 19, y / 100, y % 100;
    var d, e := b / 4, b % 4;
    var f := (b + 8) / 25;
    var g := (b - f + 1) / 3;
    var h := (19 * a + b - d - g + 15) % 30;
    var i, k := c / 4, c % 4;
    var l := (32 + 2 * e + 2 * i - h - k) % 7;
    var m := (a + 11 * h + 22 * l) / 451;
    h + l - 7 * m
  }

  /** The year the date constructor takes a number for: two digits mean the twentieth century. */
  function UtcYear(y: int): int { if 0 <= y <= 99 then 1900 + y else y }

  function Easter(y: int): int
    requires y >= 0
  {
    var n := AfterMarch22(y) + 114;
    DayNumber(UtcYear(y), n / 31, n % 31 + 1)
  }

  lemma EasterRange(y: int)
    requires y >= 0
    ensures 0 <= AfterMarch22(y) <= 34
  {
    var a, b, c := y % 19, y / 100, y % 100;
    var d, e := b / 4, b % 4;
    var f := (b + 8) / 25;
    var g := (b - f + 1) / 3;
    var h := (19 * a + b - d - g + 15) % 30;
    var i, k := c / 4, c % 4;
    var l := (32 + 2 * e + 2 * i - h - k) % 7;
    Clip(a, h, l);
  }

  lemma Clip(a: int, h: int, l: int)
    requires 0 <= a < 19 && 0 <= h < 30 && 0 <= l < 7
    ensures 0 <= h + l - 7 * ((a + 11 * h + 22 * l) / 451) <= 34
  {
  }

  /** March 1 counted the Gregorian way. */
  lemma MarchFirst(y: int)
    ensures DayNumber(y, 3, 1) == 365 * y + y / 4 - y / 100 + y / 400 - 719468
  {
    Quarter(y, 4);
    Quarter(y, 100);
    Quarter(y, 400);
    LeapBy(y);
  }

  lemma EasterIs(y: int)
    requires y >= 0
    ensures Easter(y) == DayNumber(UtcYear(y), 3, 22) + AfterMarch22(y)
    ensures DayNumber(UtcYear(y), 3, 22) <= Easter(y) <= DayNumber(UtcYear(y), 4, 25)
  {
    EasterRange(y);
    hide AfterMarch22, YearStart, LeapDay;
  }

  lemma Digits(y: int, b: int, c: int, d: int, e: int, i: int, k: int)
    requires y >= 0 && b == y / 100 && c == y % 100 && d == b / 4 && e == b % 4 && i == c / 4 && k == c % 4
    ensures y == 400 * d + 100 * e + 4 * i + k && y / 4 == 100 * d + 25 * e + i && y / 100 == 4 * d + e && y / 400 == d
  {
    assert y == 100 * b + c && b == 4 * d + e && c == 4 * i + k;
    assert 0 <= k < 4 && 0 <= e < 4 && 0 <= i < 25;
  }

  /** The day of the formula, in the year it is made for, is a Sunday. */
  lemma FormulaSunday(y: int)
    requires y >= 0
    ensures Weekday(DayNumber(y, 3, 22) + AfterMarch22(y)) == 0
  {
    hide Leap, YearStart, LeapDay;
    MarchFirst(y);
    assert DayNumber(y, 3, 22) == DayNumber(y, 3, 1) + 21;
    hide DayNumber;
    var a, b, c := y % 19, y / 100, y % 100;
    var d, e := b / 4, b % 4;
    var f := (b + 8) / 25;
    var g := (b - f + 1) / 3;
    var h := (19 * a + b - d - g + 15) % 30;
    var i, k := c / 4, c % 4;
    var x := 32 + 2 * e + 2 * i - h - k;
    var q, l := x / 7, x % 7;
    var m := (a + 11 * h + 22 * l) / 451;
    assert AfterMarch22(y) == h + l - 7 * m;
    hide AfterMarch22;
    Digits(y, b, c, d, e, i, k);
    SevenTimes(DayNumber(y, 3, 22) + AfterMarch22(y) + 4, 20871 * d + 5218 * e + 209 * i + 52 * k - 102773 - q - m);
  }

  /** The same date 1900 years on is one weekday later. */
  lemma CenturyShift(y: int)
    requires 0 <= y <= 99
    ensures DayNumber(1900 + y, 3, 22) == DayNumber(y, 3, 22) + 693960
  {
    hide YearStart, LeapDay;
    MarchFirst(y);
    MarchFirst(1900 + y);
    March1(y);
    March1(1900 + y);
    hide DayNumber;
    NineteenCenturies(y);
  }

  lemma March1(y: int)
    ensures DayNumber(y, 3, 22) == DayNumber(y, 3, 1) + 21
  {
    hide YearStart, LeapDay;
  }

  lemma NineteenCenturies(y: int)
    requires 0 <= y <= 99
    ensures (1900 + y) / 4 == 475 + y / 4 && (1900 + y) / 100 == 19 && y / 100 == 0
    ensures (1900 + y) / 400 == 4 && y / 400 == 0
  {
  }

  /**
    Gregorian Easter is a Sunday from 22 March to 25 April in exactly the years from 100 on: two digits are taken for
    the twentieth century, where the date falls on a Monday.
   */
  lemma EasterIsSunday(y: int)
    requires y >= 0
    ensures Weekday(Easter(y)) == 0 <==> y >= 100
    ensures y >= 100 ==> DayNumber(y, 3, 22) <= Easter(y) <= DayNumber(y, 4, 25)
  {
    hide Easter, AfterMarch22, DayNumber;
    EasterIs(y);
    FormulaSunday(y);
    if y < 100 { CenturyShift(y); }
  }

  lemma SevenTimes(s: int, n: int)
    requires s == 7 * n
    ensures s % 7 == 0
  {
  }

  // ---------- holidays ----------

  /** The first day of each month within its year, counted from 0; month 13 is the next year. */
  function MonthStart(y: int, m: int): int {
    if m >= 13 then 365 + LeapDay(y) else Before(m) + if m > 2 then LeapDay(y) else 0
  }

  /** The month of the n-th day of the year, looking down from month m. */
  function MonthDown(y: int, n: int, m: int): (r: int)
    requires 1 <= m <= 12 && n >= 0
    ensures 1 <= r <= m && MonthStart(y, r) <= n && (r < m ==> n < MonthStart(y, r + 1))
    decreases m
  {
    if m == 1 || n >= MonthStart(y, m) then m else MonthDown(y, n, m - 1)
  }

  datatype Date = Date(y: int, m: int, d: int)

  function DateOf(day: int): (t: Date)
    requires day >= FIRST
    ensures t.y == YearOf(day) && 1 <= t.m <= 12 && day == DayNumber(t.y, t.m, t.d)
    ensures 1 <= t.d && MonthStart(t.y, t.m) + t.d <= MonthStart(t.y, t.m + 1)
  {
    var y := YearOf(day);
    NextYear(y);
    var n := day - YearStart(y);
    var m := MonthDown(y, n, 12);
    Date(y, m, n - MonthStart(y, m) + 1)
  }

  predicate FixedHoliday(m: int, d: int) { m * 100 + d in {101, 501, 1003, 1225, 1226} }

  predicate Holiday(day: int)
    requires day >= FIRST
  {
    var t := DateOf(day);
    var e := day - Easter(t.y);
    FixedHoliday(t.m, t.d) || e == -2 || e == 1 || e == 39 || e == 50
  }

  predicate Workday(day: int)
    requires day >= FIRST
  {
    Weekday(day) % 6 != 0 && !Holiday(day)
  }

  /** The fixed holidays as places within the year. */
  lemma FixedPlaces(day: int)
    requires day >= FIRST
    ensures var t, n := DateOf(day), day - YearStart(YearOf(day));
      FixedHoliday(t.m, t.d) <==> n == 0 || n - LeapDay(t.y) in {120, 275, 358, 359}
  {
    var t := DateOf(day);
    assert 0 <= LeapDay(t.y) <= 1;
    hide YearOf, YearStart, LeapDay, DateOf;
    if FixedHoliday(t.m, t.d) { FixedIsPlace(t.y, t.m, t.d); }
    PlaceIsFixed(t.y, t.m, t.d);
  }

  lemma FixedIsPlace(y: int, m: int, d: int)
    requires 1 <= m <= 12 && 1 <= d && MonthStart(y, m) + d <= MonthStart(y, m + 1) && FixedHoliday(m, d)
    requires 0 <= LeapDay(y) <= 1
    ensures MonthStart(y, m) + d - 1 == 0 || MonthStart(y, m) + d - 1 - LeapDay(y) in {120, 275, 358, 359}
  {
    hide LeapDay;
    ShortMonths(y, m);
    assert m == (m * 100 + d) / 100;
  }

  lemma ShortMonths(y: int, m: int)
    requires 1 <= m <= 12 && 0 <= LeapDay(y) <= 1
    ensures 28 <= MonthStart(y, m + 1) - MonthStart(y, m) <= 31
  {
    hide LeapDay;
  }

  lemma PlaceIsFixed(y: int, m: int, d: int)
    requires 1 <= m <= 12 && 1 <= d && MonthStart(y, m) + d <= MonthStart(y, m + 1) && 0 <= LeapDay(y) <= 1
    ensures MonthStart(y, m) + d - 1 == 0 || MonthStart(y, m) + d - 1 - LeapDay(y) in {120, 275, 358, 359} ==>
      FixedHoliday(m, d)
  {
    hide LeapDay;
  }

  /**
    Where a holiday that falls on a Monday can lie in its year: n days after 1 January, x the days from 22 March to
    Easter.
   */
  predicate MondayPlace(n: int, leap: int, x: int) {
    n == 0 || n - leap in {120, 275, 358, 359} || n - leap == 81 + x || n - leap == 130 + x
  }

  lemma MondayHoliday(day: int, y: int)
    requires day >= FIRST && Weekday(day) == 1 && y == YearOf(day)
    ensures Holiday(day) <==> MondayPlace(day - YearStart(y), LeapDay(y), AfterMarch22(y))
    ensures 0 <= AfterMarch22(y) <= 34 && 0 <= day - YearStart(y) < 365 + LeapDay(y) && 0 <= LeapDay(y) <= 1
  {
    hide AfterMarch22, YearStart, LeapDay, Easter, FixedHoliday, DayNumber, YearFrom, Weekday;
    YearStarts(day);
    FixedPlaces(day);
    EasterRange(y);
    EasterIs(y);
    EasterIsSunday(y);
    NextYear(y);
    LeapRange(y);
    March22(y);
    NotFridayOrThursday(day, Easter(y));
  }

  lemma YearStarts(day: int)
    requires day >= FIRST
    ensures DateOf(day).y == YearOf(day) >= 1583 && YearStart(YearOf(day)) <= day < YearStart(YearOf(day) + 1)
  {
  }

  lemma March22(y: int)
    ensures DayNumber(y, 3, 22) == YearStart(y) + 80 + LeapDay(y)
  {
  }

  lemma NotFridayOrThursday(day: int, e: int)
    requires Weekday(day) == 1 && Weekday(e) == 0
    ensures day - e != -2 && day - e != 39
  {
  }

  /** Of three Mondays in a row one is no holiday. */
  lemma OneMondayFree(day: int)
    requires day >= FIRST && Weekday(day) == 1
    ensures !(Holiday(day) && Holiday(day + 7) && Holiday(day + 14))
  {
    hide Holiday, AfterMarch22, YearStart, LeapDay, YearOf, MondayPlace, Weekday;
    var y := YearOf(day);
    NextYear(y);
    LeapRange(y + 1);
    MondayAgain(day);
    MondayAgain(day + 7);
    MondayHoliday(day, y);
    WithinOrNext(day, day + 7, y);
    WithinOrNext(day, day + 14, y);
    MondayHoliday(day + 7, YearOf(day + 7));
    MondayHoliday(day + 14, YearOf(day + 14));
    EasterRange(y + 1);
    ThreeMondays(day - YearStart(y), LeapDay(y), AfterMarch22(y), LeapDay(y + 1), AfterMarch22(y + 1));
  }

  lemma LeapRange(y: int)
    ensures 0 <= LeapDay(y) <= 1
  {
  }

  lemma ThreeMondays(n: int, leap: int, x: int, leap': int, x': int)
    requires 0 <= leap <= 1 && 0 <= leap' <= 1 && 0 <= x <= 34 && 0 <= x' <= 34 && 0 <= n < 365 + leap
    ensures !(MondayPlace(n, leap, x)
              && (if n + 7 < 365 + leap then MondayPlace(n + 7, leap, x)
                 else MondayPlace(n + 7 - 365 - leap, leap', x'))
              && (if n + 14 < 365 + leap then MondayPlace(n + 14, leap, x)
                 else MondayPlace(n + 14 - 365 - leap, leap', x')))
  {
  }

  lemma MondayAgain(day: int)
    requires Weekday(day) == 1
    ensures Weekday(day + 7) == 1
  {
  }

  lemma WithinOrNext(day: int, later: int, y: int)
    requires day >= FIRST && y == YearOf(day) && day <= later <= day + 14
    ensures YearOf(later) == if later < YearStart(y + 1) then y else y + 1
  {
    NextYear(y);
    NextYear(y + 1);
    OneYear(later, if later < YearStart(y + 1) then y else y + 1);
  }

  // ---------- the first day and the deadlines ----------

  /**
    The suggested first day: a Monday at least a week ahead, no holiday, and at most two weeks after the first such
    Monday.
   */
  method FirstDay(today: int) returns (d: int)
    requires today >= FIRST
    ensures today + 7 <= d <= today + 13 + 14 && Weekday(d) == 1 && !Holiday(d)
    ensures forall k :: today + 7 <= k < d && Weekday(k) == 1 ==> Holiday(k)
  {
    hide Holiday;
    d := today + 7 + (8 - Weekday(today + 7)) % 7;
    FirstMonday(today + 7);
    ghost var first := d;
    OneMondayFree(first);
    while Holiday(d)
      invariant Weekday(d) == 1 && (d == first || d == first + 7 || d == first + 14)
      invariant forall k :: today + 7 <= k < d && Weekday(k) == 1 ==> Holiday(k)
      invariant d > first ==> Holiday(first)
      invariant d > first + 7 ==> Holiday(first + 7)
      decreases first + 14 - d
    {
      NoMondayBetween(d);
      MondayAgain(d);
      d := d + 7;
    }
  }

  lemma FirstMonday(from: int)
    ensures var d := from + (8 - Weekday(from)) % 7; from <= d <= from + 6 && Weekday(d) == 1
    ensures forall k :: from <= k < from + (8 - Weekday(from)) % 7 ==> Weekday(k) != 1
  {
  }

  lemma NoMondayBetween(d: int)
    requires Weekday(d) == 1
    ensures forall k :: d < k < d + 7 ==> Weekday(k) != 1
  {
  }

  datatype Offset = Open | Now | Days(n: int)

  /** A deadline: never before today; other than day one it moves back to the last working day, as far as today. */
  method DueOf(off: Offset, start: int, today: int) returns (due: int)
    requires today >= FIRST
    ensures off.Open? ==> due == 0
    ensures !off.Open? ==> due >= today && due >= 1
    ensures off.Now? || off == Days(0) ==> due == Max(if off.Now? then today else start, Max(today, 1))
    ensures off.Days? && off.n != 0 ==>
      && (due > today && due > 1 ==> due <= start + off.n && Workday(due))
      && (forall k :: due < k <= start + off.n && k > today ==> !Workday(k))
  {
    hide Workday;
    if off.Open? { return 0; }
    var d := if off.Now? then today else start + off.n;
    if off.Days? && off.n != 0 {
      while d > today && !Workday(d)
        invariant d <= start + off.n
        invariant forall k :: d < k <= start + off.n && k > today ==> !Workday(k)
        decreases d - today
      {
        d := d - 1;
      }
    }
    due := Max(d, Max(today, 1));
  }

  function Max(a: int, b: int): int { if a < b then b else a }
}
