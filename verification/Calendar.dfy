/** UTC instants as microseconds since 0001-01-01T00:00 (the origin of Python's `datetime`, a Monday),
    the proleptic Gregorian month, and the bucket grid of every materialized candle unit. */
module Calendar {

  type Time = nat

  const MINUTE: nat := 60_000_000
  const HOUR: nat := 3_600_000_000
  const DAY: nat := 86_400_000_000

  /** The derived candle units, shortest first ("3m" ... "1d", "1w", "1M"). */
  datatype Unit = Min3 | Min5 | Min10 | Min15 | Min30 | Hour1 | Hour4 | Day1 | Week1 | Month1

  // ---------------------------------------------------------------- Gregorian months

  predicate IsLeap(year: nat) {
    year % 4 == 0 && (year % 100 != 0 || year % 400 == 0)
  }

  function YearLength(year: nat): nat { if IsLeap(year) then 366 else 365 }

  /** The day number of 1 January; day 0 is 1 January of year 1. */
  function YearStart(year: nat): nat {
    if year <= 1 then 0 else YearStart(year - 1) + YearLength(year - 1)
  }

  /** Days of the year before month `k` (1 for January; 13 gives the whole year). */
  function DaysBefore(k: nat, leap: bool): nat {
    var extra := if leap then 1 else 0;
    if k <= 1 then 0
    else if k == 2 then 31
    else if k == 3 then 59 + extra
    else if k == 4 then 90 + extra
    else if k == 5 then 120 + extra
    else if k == 6 then 151 + extra
    else if k == 7 then 181 + extra
    else if k == 8 then 212 + extra
    else if k == 9 then 243 + extra
    else if k == 10 then 273 + extra
    else if k == 11 then 304 + extra
    else if k == 12 then 334 + extra
    else 365 + extra
  }

  datatype Month = Month(year: nat, month: nat)

  predicate ValidMonth(m: Month) { 1 <= m.year && 1 <= m.month <= 12 }

  /** The month after `m`: January of the next year after a December. */
  function NextMonth(m: Month): Month {
    if m.month == 12 then Month(m.year + 1, 1) else Month(m.year, m.month + 1)
  }

  function MonthStart(m: Month): nat { YearStart(m.year) + DaysBefore(m.month, IsLeap(m.year)) }

  /** `calendar.monthrange(year, month)[1]`. */
  function DaysInMonth(m: Month): (d: nat)
    requires ValidMonth(m)
    ensures 28 <= d <= 31
  {
    DaysBefore(m.month + 1, IsLeap(m.year)) - DaysBefore(m.month, IsLeap(m.year))
  }

  lemma WithinYear(m: Month)
    requires ValidMonth(m)
    ensures YearStart(m.year) <= MonthStart(m)
    ensures MonthStart(NextMonth(m)) == YearStart(m.year) + DaysBefore(m.month + 1, IsLeap(m.year))
    ensures MonthStart(NextMonth(m)) <= YearStart(m.year + 1)
  {
    if m.month == 12 {
      assert YearStart(m.year + 1) == YearStart(m.year) + YearLength(m.year);
    }
  }

  lemma MonthStep(m: Month)
    requires ValidMonth(m)
    ensures ValidMonth(NextMonth(m)) && MonthStart(NextMonth(m)) == MonthStart(m) + DaysInMonth(m)
  {
    WithinYear(m);
  }

  function YearSearch(year: nat, day: nat): (r: nat)
    requires 1 <= year && YearStart(year) <= day
    ensures 1 <= r && YearStart(r) <= day < YearStart(r + 1)
    decreases day - YearStart(year)
  {
    if day < YearStart(year + 1) then year else YearSearch(year + 1, day)
  }

  function MonthSearch(k: nat, leap: bool, rest: nat): (r: nat)
    requires 1 <= k <= 12 && DaysBefore(k, leap) <= rest < DaysBefore(13, leap)
    ensures 1 <= r <= 12 && DaysBefore(r, leap) <= rest < DaysBefore(r + 1, leap)
    decreases 12 - k
  {
    if rest < DaysBefore(k + 1, leap) then k else MonthSearch(k + 1, leap, rest)
  }

  /** The calendar month that holds a day. */
  function MonthOf(day: nat): (m: Month)
    ensures ValidMonth(m) && MonthStart(m) <= day < MonthStart(NextMonth(m))
  {
    var y := YearSearch(1, day);
    var m := Month(y, MonthSearch(1, IsLeap(y), day - YearStart(y)));
    MonthStep(m);
    m
  }

  lemma {:induction false} YearStartMonotone(a: nat, b: nat)
    requires a <= b
    ensures YearStart(a) <= YearStart(b)
  {
    if a < b { YearStartMonotone(a, b - 1); }
  }

  lemma DaysBeforeMonotone(a: nat, b: nat, leap: bool)
    requires a <= b
    ensures DaysBefore(a, leap) <= DaysBefore(b, leap)
  {}

  lemma EarlierYear(a: Month, b: Month)
    requires ValidMonth(a) && ValidMonth(b) && a.year < b.year
    ensures MonthStart(NextMonth(a)) <= MonthStart(b)
  {
    WithinYear(a);
    WithinYear(b);
    YearStartMonotone(a.year + 1, b.year);
  }

  lemma EarlierMonth(a: Month, b: Month)
    requires ValidMonth(a) && ValidMonth(b) && a.year == b.year && a.month < b.month
    ensures MonthStart(NextMonth(a)) <= MonthStart(b)
  {
    WithinYear(a);
    DaysBeforeMonotone(a.month + 1, b.month, IsLeap(a.year));
  }

  lemma MonthOrder(a: Month, b: Month)
    requires ValidMonth(a) && ValidMonth(b)
    requires a.year < b.year || (a.year == b.year && a.month < b.month)
    ensures MonthStart(NextMonth(a)) <= MonthStart(b)
  {
    if a.year < b.year { EarlierYear(a, b); } else { EarlierMonth(a, b); }
  }

  lemma MonthOfUnique(day: nat, m: Month)
    requires ValidMonth(m) && MonthStart(m) <= day < MonthStart(NextMonth(m))
    ensures MonthOf(day) == m
  {
    var r := MonthOf(day);
    if r.year < m.year || (r.year == m.year && r.month < m.month) {
      MonthOrder(r, m);
    } else if r != m {
      MonthOrder(m, r);
    }
  }

  lemma Quotient(t: nat, q: nat, w: nat)
    requires 0 < w && q * w <= t < q * w + w
    ensures t / w == q
  {
    var r := t / w;
    assert t == r * w + t % w;
    assert r < q ==> (r + 1) * w <= q * w;
    assert q < r ==> (q + 1) * w <= r * w;
  }

  lemma DivStep(y: nat, k: nat)
    requires 1 < k
    ensures (y + 1) / k == y / k + (if (y + 1) % k == 0 then 1 else 0)
  {
    var q := y / k;
    assert y == q * k + y % k;
    assert (q + 1) * k == q * k + k;
    if y % k == k - 1 { Quotient(y + 1, q + 1, k); } else { Quotient(y + 1, q, k); }
  }

  function LeapsBefore(y: nat): int { y / 4 - y / 100 + y / 400 }

  lemma LeapStep(y: nat)
    ensures LeapsBefore(y + 1) == LeapsBefore(y) + (if IsLeap(y + 1) then 1 else 0)
  {
    DivStep(y, 4); DivStep(y, 100); DivStep(y, 400);
    assert (y + 1) % 100 == 0 ==> (y + 1) % 4 == 0;
    assert (y + 1) % 400 == 0 ==> (y + 1) % 100 == 0;
  }

  /** The year table is the Gregorian day count: 365 days a year and a leap day every fourth year,
      but not every hundredth unless it is a four-hundredth. */
  lemma {:induction false} GregorianYearStart(y: nat)
    ensures YearStart(y + 1) == 365 * y + y / 4 - y / 100 + y / 400
  {
    if y > 0 {
      GregorianYearStart(y - 1);
      LeapStep(y - 1);
    }
  }

  // ---------------------------------------------------------------- buckets

  function MinuteOfHour(t: Time): nat { (t / MINUTE) % 60 }
  function HourOfDay(t: Time): nat { (t / HOUR) % 24 }
  function DayOf(t: Time): nat { t / DAY }
  function Weekday(t: Time): nat { DayOf(t) % 7 }

  function MinuteFloor(t: Time, size: nat): Time
    requires 0 < size
  {
    (t / MINUTE - MinuteOfHour(t) % size) * MINUTE
  }

  function HourFloor(t: Time): Time {
    (t / HOUR - HourOfDay(t) % 4) * HOUR
  }

  /** `rollup_bucket_start`: drop the calendar fields below the unit. */
  function BucketStart(u: Unit, t: Time): Time {
    match u
    case Min3 => MinuteFloor(t, 3)
    case Min5 => MinuteFloor(t, 5)
    case Min10 => MinuteFloor(t, 10)
    case Min15 => MinuteFloor(t, 15)
    case Min30 => MinuteFloor(t, 30)
    case Hour1 => MinuteFloor(t, 60)
    case Hour4 => HourFloor(t)
    case Day1 => t - t % DAY
    case Week1 => (DayOf(t) - Weekday(t)) * DAY
    case Month1 => MonthStart(MonthOf(DayOf(t))) * DAY
  }

  predicate IsStart(u: Unit, b: Time) { BucketStart(u, b) == b }

  /** The fixed widths of `rollup_bucket_end`; the month has none. */
  function Width(u: Unit): (w: nat)
    requires u != Month1
    ensures 0 < w <= 7 * DAY && w % MINUTE == 0
  {
    match u
    case Min3 => 3 * MINUTE
    case Min5 => 5 * MINUTE
    case Min10 => 10 * MINUTE
    case Min15 => 15 * MINUTE
    case Min30 => 30 * MINUTE
    case Hour1 => HOUR
    case Hour4 => 4 * HOUR
    case Day1 => DAY
    case Week1 => 7 * DAY
  }

  /** `rollup_bucket_end`: the start of the following bucket. */
  function BucketEnd(u: Unit, b: Time): Time {
    if u == Month1 then MonthStart(NextMonth(MonthOf(DayOf(b)))) * DAY else b + Width(u)
  }

  // The calendar fields cut every fixed unit out of one even grid.

  lemma Remainder(m: nat, q: nat, w: nat)
    requires 0 < w && q * w <= m < q * w + w
    ensures m % w == m - q * w
  {
    Quotient(m, q, w);
  }

  lemma ModMod(m: nat, size: nat, c: nat)
    requires 0 < size && c * size == 60
    ensures m % 60 % size == m % size
  {
    var k, j := m / 60, m % 60;
    var q := j / size;
    calc {
      (c * k + q) * size;
      c * k * size + q * size;
      { assert c * k * size == c * size * k; }
      60 * k + q * size;
    }
    assert j == q * size + j % size;
    Remainder(m, c * k + q, size);
  }

  lemma DivDiv(t: Time, size: nat)
    requires size in {3, 5, 10, 15, 30, 60}
    ensures t / (size * MINUTE) == t / MINUTE / size
  {
    var p := t / MINUTE / size;
    match size
    case 3 => Quotient(t, p, 3 * MINUTE);
    case 5 => Quotient(t, p, 5 * MINUTE);
    case 10 => Quotient(t, p, 10 * MINUTE);
    case 15 => Quotient(t, p, 15 * MINUTE);
    case 30 => Quotient(t, p, 30 * MINUTE);
    case _ => Quotient(t, p, 60 * MINUTE);
  }

  lemma MinuteGrid(t: Time, size: nat)
    requires size in {3, 5, 10, 15, 30, 60}
    ensures MinuteFloor(t, size) == t / (size * MINUTE) * (size * MINUTE)
  {
    var m, q := t / MINUTE, t / MINUTE / size;
    ModMod(m, size, 60 / size);
    DivDiv(t, size);
    assert m == q * size + m % size;
    assert q * size * MINUTE == q * (size * MINUTE);
  }

  lemma HourGrid(t: Time)
    ensures HourFloor(t) == t / (4 * HOUR) * (4 * HOUR)
  {
    var h := t / HOUR;
    Remainder(h, 6 * (h / 24) + h % 24 / 4, 4);
    Quotient(t, h / 4, 4 * HOUR);
  }

  lemma WeekGrid(t: Time)
    ensures (DayOf(t) - Weekday(t)) * DAY == t / (7 * DAY) * (7 * DAY)
  {
    Quotient(t, DayOf(t) / 7, 7 * DAY);
  }

  lemma FixedGrid(u: Unit, t: Time)
    requires u != Month1
    ensures BucketStart(u, t) == t / Width(u) * Width(u)
  {
    match u
    case Min3 => MinuteGrid(t, 3);
    case Min5 => MinuteGrid(t, 5);
    case Min10 => MinuteGrid(t, 10);
    case Min15 => MinuteGrid(t, 15);
    case Min30 => MinuteGrid(t, 30);
    case Hour1 => MinuteGrid(t, 60);
    case Hour4 => HourGrid(t);
    case Day1 =>
    case Week1 => WeekGrid(t);
  }

  lemma GridPoint(t: Time, q: nat, w: nat)
    requires 0 < w && q * w <= t < q * w + w
    ensures t / w * w == q * w
  {
    Quotient(t, q, w);
  }

  lemma GridNext(b: Time, w: nat)
    requires 0 < w && b / w * w == b
    ensures (b + w) / w * w == b + w
  {
    var q := b / w;
    assert (q + 1) * w == q * w + w;
    Quotient(b + w, q + 1, w);
  }

  lemma DayOfMidnight(d: nat)
    ensures DayOf(d * DAY) == d
  {}

  lemma MonthBoundary(m: Month)
    requires ValidMonth(m)
    ensures MonthOf(DayOf(MonthStart(m) * DAY)) == m
  {
    MonthStep(m);
    DayOfMidnight(MonthStart(m));
    MonthOfUnique(MonthStart(m), m);
  }

  lemma GridFloor(t: Time, w: nat)
    requires 0 < w
    ensures t / w * w <= t < t / w * w + w
    ensures t / w * w / w * w == t / w * w
  {
    var q := t / w;
    assert t == q * w + t % w;
    Quotient(q * w, q, w);
  }

  /** Every instant lies in the bucket that starts at `BucketStart`, and that bucket is well formed. */
  lemma BucketContains(u: Unit, t: Time)
    ensures IsStart(u, BucketStart(u, t))
    ensures BucketStart(u, t) <= t < BucketEnd(u, BucketStart(u, t))
  {
    if u == Month1 {
      MonthBoundary(MonthOf(DayOf(t)));
    } else {
      FixedGrid(u, t);
      FixedGrid(u, BucketStart(u, t));
      GridFloor(t, Width(u));
    }
  }

  lemma MonthEnd(b: Time)
    requires IsStart(Month1, b)
    ensures IsStart(Month1, BucketEnd(Month1, b)) && b < BucketEnd(Month1, b)
  {
    MonthStep(MonthOf(DayOf(b)));
    MonthBoundary(NextMonth(MonthOf(DayOf(b))));
  }

  /** Buckets abut: the end of a bucket is the start of the next. */
  lemma EndIsStart(u: Unit, b: Time)
    requires IsStart(u, b)
    ensures IsStart(u, BucketEnd(u, b)) && b < BucketEnd(u, b)
  {
    if u == Month1 {
      MonthEnd(b);
    } else {
      FixedGrid(u, b);
      FixedGrid(u, b + Width(u));
      GridNext(b, Width(u));
    }
  }

  /** Buckets do not overlap: an instant inside a bucket has that bucket's start. */
  lemma BucketUnique(u: Unit, b: Time, t: Time)
    requires IsStart(u, b) && b <= t < BucketEnd(u, b)
    ensures BucketStart(u, t) == b
  {
    if u == Month1 {
      var m := MonthOf(DayOf(b));
      assert b == MonthStart(m) * DAY;
      assert MonthStart(m) <= DayOf(t) < MonthStart(NextMonth(m));
      MonthOfUnique(DayOf(t), m);
    } else {
      var w := Width(u);
      FixedGrid(u, b);
      FixedGrid(u, t);
      GridPoint(t, b / w, w);
    }
  }

  /** No bucket is longer than a month of 31 days. */
  lemma BucketSpan(u: Unit, b: Time)
    requires IsStart(u, b)
    ensures BucketEnd(u, b) <= b + 31 * DAY
  {
    if u == Month1 { MonthStep(MonthOf(DayOf(b))); }
  }

  predicate DaySlots(u: Unit) { u == Week1 || u == Month1 }

  /** Width of the slots whose presence decides completeness: days for weeks and months, else minutes. */
  function Slot(u: Unit): nat { if DaySlots(u) then DAY else MINUTE }

  /** Number of slots in a bucket (`expected_size`, or `monthrange` for a month). */
  function SlotCount(u: Unit, b: Time): nat {
    match u
    case Min3 => 3
    case Min5 => 5
    case Min10 => 10
    case Min15 => 15
    case Min30 => 30
    case Hour1 => 60
    case Hour4 => 240
    case Day1 => 24 * 60
    case Week1 => 7
    case Month1 => DaysInMonth(MonthOf(DayOf(b)))
  }

  lemma MultipleOf(b: nat, q: nat, n: nat, s: nat)
    requires s > 0 && b == q * (n * s)
    ensures b % s == 0
  {
    assert q * (n * s) == q * n * s;
    Remainder(b, q * n, s);
  }

  lemma SlotWidth(u: Unit, b: Time)
    requires u != Month1
    ensures Width(u) == SlotCount(u, b) * Slot(u) && Slot(u) > 0
  {}

  lemma FixedSlots(u: Unit, b: Time)
    requires u != Month1 && IsStart(u, b)
    ensures Width(u) == SlotCount(u, b) * Slot(u) && b % Slot(u) == 0
  {
    SlotWidth(u, b);
    StartIsMultiple(u, b, Width(u));
    WholeSlots(b, Width(u), SlotCount(u, b), Slot(u));
  }

  lemma StartIsMultiple(u: Unit, b: Time, w: nat)
    requires u != Month1 && IsStart(u, b) && w == Width(u) && w > 0
    ensures b == b / w * w
  {
    FixedGrid(u, b);
  }

  lemma WholeSlots(b: nat, w: nat, n: nat, s: nat)
    requires s > 0 && w > 0 && w == n * s && b == b / w * w
    ensures b % s == 0
  {
    MultipleOf(b, b / w, n, s);
  }

  /** The slots of a bucket tile it exactly, and they are aligned to the slot grid. */
  lemma SlotsTile(u: Unit, b: Time)
    requires IsStart(u, b)
    ensures b + SlotCount(u, b) * Slot(u) == BucketEnd(u, b)
    ensures b % Slot(u) == 0
  {
    if u == Month1 {
      MonthStep(MonthOf(DayOf(b)));
    } else {
      FixedSlots(u, b);
    }
  }

  /** Weeks and months are made of whole days: the bucket of a day is the bucket of each of its instants. */
  lemma DayNests(u: Unit, t: Time)
    requires DaySlots(u)
    ensures BucketStart(u, BucketStart(Day1, t)) == BucketStart(u, t)
  {
    var d := BucketStart(Day1, t);
    assert DayOf(d) == DayOf(t);
  }

  lemma DayStartOfLong(u: Unit, b: Time)
    requires DaySlots(u) && IsStart(u, b)
    ensures IsStart(Day1, b)
  {
    SlotsTile(u, b);
  }

  // ---------------------------------------------------------------- grids

  /** A bucket grid on its own: where the bucket of an instant starts, and where a bucket ends. */
  datatype Grid = Grid(start: Time -> Time, end: Time -> Time)

  /** Names an instant at which the laws of a grid are wanted. */
  predicate At(t: Time) { true }

  /** The laws of a bucket grid: buckets hold their instants, abut, and do not overlap. */
  ghost predicate Tiling(g: Grid) {
    && (forall t: Time {:trigger At(t)} :: At(t) ==>
          && g.start(g.start(t)) == g.start(t)
          && g.start(t) <= t < g.end(g.start(t)))
    && (forall b: Time {:trigger At(b)} :: At(b) && g.start(b) == b ==>
          && g.start(g.end(b)) == g.end(b)
          && b < g.end(b))
    && (forall b: Time, t: Time {:trigger At(b), At(t)} :: At(b) && At(t) && g.start(b) == b && b <= t < g.end(b) ==>
          g.start(t) == b)
  }

  lemma GridContains(g: Grid, t: Time)
    requires Tiling(g)
    ensures g.start(g.start(t)) == g.start(t) <= t < g.end(g.start(t))
  {
    assert At(t);
  }

  lemma GridEnd(g: Grid, b: Time)
    requires Tiling(g) && g.start(b) == b
    ensures g.start(g.end(b)) == g.end(b) && b < g.end(b)
  {
    assert At(b);
  }

  lemma GridUnique(g: Grid, b: Time, t: Time)
    requires Tiling(g) && g.start(b) == b && b <= t < g.end(b)
    ensures g.start(t) == b
  {
    assert At(b) && At(t);
  }

  lemma GridMonotone(g: Grid, s: Time, t: Time)
    requires Tiling(g) && s <= t
    ensures g.start(s) <= g.start(t)
  {
    GridContains(g, s);
    GridContains(g, t);
    if g.start(t) < g.start(s) { GridUnique(g, g.start(t), s); }
  }

  /** A bucket that starts before a boundary ends at or before it. */
  lemma GridEndBelow(g: Grid, b: Time, c: Time)
    requires Tiling(g) && g.start(b) == b && g.start(c) == c && b < c
    ensures g.end(b) <= c
  {
    if c < g.end(b) { GridUnique(g, b, c); }
  }

  function GridOf(u: Unit): Grid { Grid(t => BucketStart(u, t), b => BucketEnd(u, b)) }

  /** Every unit's buckets, including weeks and calendar months, form a grid. */
  lemma UnitGrid(u: Unit)
    ensures Tiling(GridOf(u))
  {
    var g := GridOf(u);
    forall t: Time | At(t) ensures g.start(g.start(t)) == g.start(t) <= t < g.end(g.start(t)) {
      BucketContains(u, t);
    }
    forall b: Time | At(b) && g.start(b) == b ensures g.start(g.end(b)) == g.end(b) && b < g.end(b) {
      EndIsStart(u, b);
    }
    forall b: Time, t: Time | At(b) && At(t) && g.start(b) == b && b <= t < g.end(b) ensures g.start(t) == b {
      BucketUnique(u, b, t);
    }
  }
}
