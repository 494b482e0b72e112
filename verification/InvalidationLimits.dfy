/** Where invalidation stops being complete: bounds off the slot grid, and the units a daily spec leaves out. */
module InvalidationLimits {
  import opened Ordering
  import opened Calendar
  import opened Coverage
  import opened Rollup
  import opened RollupLocality
  import opened Invalidation
  import RollupRanges

  // ---------------------------------------------------------------- a bucket with some minute candles

  /** The slot a minute candle is observed in. */
  function ObservedAt(u: Unit, m: Bar): Time { if DaySlots(u) then GridOf(Day1).start(m.at) else m.at }

  function Observer(u: Unit): Bar -> Time { (m: Bar) => ObservedAt(u, m) }

  function SeenAt(seen: Bar -> Time, minutes: seq<Bar>): set<Time> { set m | m in minutes :: seen(m) }

  function ObservedIn(u: Unit, minutes: seq<Bar>): set<Time> { SeenAt(Observer(u), minutes) }

  lemma GroupWhole(g: Grid, minutes: seq<Bar>, b: Time)
    requires minutes != [] && forall m :: m in minutes ==> g.start(m.at) == b
    ensures Group(g, minutes, b) != [] && Times(Group(g, minutes, b)) == Times(minutes)
  {
    FilterAll(minutes, InBucket(g, b));
    StableSortMembers(minutes, ByStart);
    assert minutes[0] in minutes;
  }

  lemma ShortObserved(f: Frame, minutes: seq<Bar>, cov: set<Slice>, b: Time)
    requires minutes != [] && forall m :: m in minutes ==> f.grid.start(m.at) == b
    ensures ShortView(f, minutes, cov, b).Some?
    ensures ShortView(f, minutes, cov, b).value.quality
         == WorstQuality(MissingSlots(b, f.slot, f.count(b), Times(minutes), cov))
  {
    GroupWhole(f.grid, minutes, b);
  }

  lemma DayHasBar(f: Frame, minutes: seq<Bar>, cov: set<Slice>, d: Time)
    requires d in DayKeys(f.grid, Inputs(minutes, []))
    ensures var v := DayView(f, Inputs(minutes, []), cov, d); v.Some? && v.value.bar.at == d
  {
    var x :| x in minutes && f.grid.start(x.at) == d;
    var items := Filter(minutes, InBucket(f.grid, d));
    StableSortMembers(items, ByStart);
    assert x in Group(f.grid, minutes, d);
  }

  lemma {:induction false} DayBarsTimes(f: Frame, minutes: seq<Bar>, cov: set<Slice>, ds: seq<Time>)
    requires forall i :: 0 <= i < |ds| ==> ds[i] in DayKeys(f.grid, Inputs(minutes, []))
    ensures var o := DayBars(f, Inputs(minutes, []), cov, ds);
      |o| == |ds| && forall i :: 0 <= i < |ds| ==> o[i].at == ds[i]
  {
    if ds != [] {
      DayHasBar(f, minutes, cov, ds[0]);
      DayBarsTimes(f, minutes, cov, ds[1..]);
    }
  }

  function DaysSeen(day: Grid, minutes: seq<Bar>): set<Time> { set m | m in minutes :: day.start(m.at) }

  lemma LongObserved(long: Frame, day: Frame, minutes: seq<Bar>, cov: set<Slice>, b: Time)
    requires Nests(long.grid, day.grid) && minutes != [] && forall m :: m in minutes ==> long.grid.start(m.at) == b
    ensures LongView(long, day, Inputs(minutes, []), cov, b).Some?
    ensures LongView(long, day, Inputs(minutes, []), cov, b).value.quality
         == WorstQuality(MissingSlots(b, long.slot, long.count(b), DaysSeen(day.grid, minutes), cov))
  {
    var inp := Inputs(minutes, []);
    var ds := DaysOf(long.grid, DayKeys(day.grid, inp), b);
    assert forall i :: 0 <= i < |ds| ==> ds[i] in ds;
    DayBarsTimes(day, minutes, cov, ds);
    var o := DayBars(day, inp, cov, ds);
    forall m | m in minutes ensures day.grid.start(m.at) in ds { assert At(m.at); }
    assert minutes[0] in minutes;
    TimesAre(o, ds, DaysSeen(day.grid, minutes));
  }

  lemma TimesAre(o: seq<Bar>, ds: seq<Time>, seen: set<Time>)
    requires |o| == |ds| && (forall i :: 0 <= i < |ds| ==> o[i].at == ds[i]) && forall d :: d in ds <==> d in seen
    ensures Times(o) == seen
  {
    forall d | d in seen ensures d in Times(o) {
      var i :| 0 <= i < |ds| && ds[i] == d;
      assert o[i] in o;
    }
    forall x | x in o ensures x.at in seen {
      var i :| 0 <= i < |o| && o[i] == x;
      assert ds[i] in ds;
    }
  }

  lemma LongUnitObserved(u: Unit, minutes: seq<Bar>, cov: set<Slice>, b: Time)
    requires DaySlots(u) && minutes != [] && forall m :: m in minutes ==> GridOf(u).start(m.at) == b
    ensures ViewAt(u, Inputs(minutes, []), cov, b).Some?
    ensures ViewAt(u, Inputs(minutes, []), cov, b).value.quality
          == QualityBy(FrameOf(u), b, ObservedIn(u, minutes), cov)
  {
    UnitNests(u);
    LongObserved(FrameOf(u), FrameOf(Day1), minutes, cov, b);
    assert ObservedIn(u, minutes) == DaysSeen(GridOf(Day1), minutes);
  }

  lemma ShortUnitObserved(u: Unit, minutes: seq<Bar>, cov: set<Slice>, b: Time)
    requires !DaySlots(u) && minutes != [] && forall m :: m in minutes ==> GridOf(u).start(m.at) == b
    ensures ViewAt(u, Inputs(minutes, []), cov, b).Some?
    ensures ViewAt(u, Inputs(minutes, []), cov, b).value.quality
          == QualityBy(FrameOf(u), b, ObservedIn(u, minutes), cov)
  {
    ShortObserved(FrameOf(u), minutes, cov, b);
    assert ObservedIn(u, minutes) == Times(minutes);
  }

  /** The quality of a candle whose minutes all lie in its bucket. */
  lemma ViewObserved(u: Unit, minutes: seq<Bar>, cov: set<Slice>, b: Time)
    requires minutes != [] && forall m :: m in minutes ==> GridOf(u).start(m.at) == b
    ensures ViewAt(u, Inputs(minutes, []), cov, b).Some?
    ensures ViewAt(u, Inputs(minutes, []), cov, b).value.quality
          == QualityBy(FrameOf(u), b, ObservedIn(u, minutes), cov)
  {
    if DaySlots(u) { LongUnitObserved(u, minutes, cov, b); } else { ShortUnitObserved(u, minutes, cov, b); }
  }

  lemma {:induction false} SlotListed(b: Time, slot: nat, n: nat, observed: set<Time>, cov: set<Slice>, k: nat)
    requires k < n && b + slot * k !in observed
    ensures SlotQuality(Covering(cov, b + slot * k, b + slot * k + slot)) in MissingSlots(b, slot, n, observed, cov)
  {
    if k != n - 1 { SlotListed(b, slot, n - 1, observed, cov, k); }
  }

  /** Slots that all read alike leave nothing else in the list. */
  lemma {:induction false} SlotsAlike(b: Time, slot: nat, n: nat, observed: set<Time>, cov: set<Slice>, q: Status)
    requires forall k: nat {:trigger At(k)} :: At(k) && k < n ==>
      SlotQuality(Covering(cov, b + slot * k, b + slot * k + slot)) == q
    ensures forall x :: x in MissingSlots(b, slot, n, observed, cov) ==> x == q
  {
    if n > 0 {
      assert At(n - 1);
      SlotsAlike(b, slot, n - 1, observed, cov, q);
    }
  }

  /** When all slots but one are observed, that one is the whole list. */
  lemma {:induction false} OnlySlot(b: Time, slot: nat, n: nat, observed: set<Time>, cov: set<Slice>, k: nat)
    requires AllBut(b, slot, n, observed, k)
    ensures MissingSlots(b, slot, n, observed, cov)
         == if k < n then [SlotQuality(Covering(cov, b + slot * k, b + slot * k + slot))] else []
  {
    if n > 0 {
      assert At(n - 1);
      OnlySlot(b, slot, n - 1, observed, cov, k);
    }
  }

  // ---------------------------------------------------------------- a split slot goes unseen

  /** One interval of the table surrounds the range and has the status that is about to be written. */
  ghost predicate Surrounds(before: set<Row>, row: Row, spec: int, lo: Time, hi: Time, now: Cell) {
    && Consistent(before) && row in before && row.spec == spec && row.start <= lo < hi <= row.end
    && row.cell.status == now.status && row.cell != now
  }

  /** Overwriting part of one interval by the same status records nothing. */
  lemma SilentSplit(before: set<Row>, row: Row, spec: int, lo: Time, hi: Time, now: Cell, after: set<Row>,
                    ts: seq<Transition>)
    requires Surrounds(before, row, spec, lo, hi, now) && Replaced(before, after, spec, lo, hi, now, ts)
    ensures ts == []
  {
    forall t | In(t, lo, hi) ensures StatusAt(before, spec, t) == Some(now.status) {
      assert Holds(row, spec, t);
      CellAtRow(before, spec, t, row);
    }
    NothingTold(before, spec, lo, hi, now.status, ts);
  }

  lemma CutCells(before: set<Row>, row: Row, spec: int, lo: Time, hi: Time, now: Cell, after: set<Row>,
                 ts: seq<Transition>, cut: Time)
    requires Surrounds(before, row, spec, lo, hi, now) && Replaced(before, after, spec, lo, hi, now, ts)
    requires cut in {lo, hi} && row.start < cut < row.end
    ensures CellAt(after, spec, cut - 1) != CellAt(after, spec, cut)
  {
    assert Holds(row, spec, cut - 1) && Holds(row, spec, cut);
    CellAtRow(before, spec, cut - 1, row);
    CellAtRow(before, spec, cut, row);
    assert CellAt(after, spec, cut - 1) == Overwritten(before, spec, lo, hi, now, spec, cut - 1);
    assert CellAt(after, spec, cut) == Overwritten(before, spec, lo, hi, now, spec, cut);
  }

  lemma OneRowOneCell(rows: set<Row>, spec: int, r: Row, s: Time, t: Time)
    requires Consistent(rows) && r in rows && CellAt(rows, spec, s) != CellAt(rows, spec, t)
    ensures !(Holds(r, spec, s) && Holds(r, spec, t))
  {
    if Holds(r, spec, s) && Holds(r, spec, t) {
      CellAtRow(rows, spec, s, r);
      CellAtRow(rows, spec, t, r);
    }
  }

  /** ... but a slot cut by the new bound is no longer inside an interval of the spec. */
  lemma SplitSlot(before: set<Row>, row: Row, spec: int, lo: Time, hi: Time, now: Cell, after: set<Row>,
                  ts: seq<Transition>, specs: set<int>, from: Time, to: Time, cut: Time)
    requires Surrounds(before, row, spec, lo, hi, now) && Replaced(before, after, spec, lo, hi, now, ts)
    requires cut in {lo, hi} && row.start <= from < cut < to <= row.end
    ensures Covering(MarketCoverage(after, specs), from, to)
          == Covering(MarketCoverage(before, specs - {spec}), from, to)
  {
    NoneAcross(before, row, spec, lo, hi, now, after, ts, from, to, cut);
    SameCovering(before, after, spec, specs, from, to);
  }

  lemma NoneAcross(before: set<Row>, row: Row, spec: int, lo: Time, hi: Time, now: Cell, after: set<Row>,
                   ts: seq<Transition>, from: Time, to: Time, cut: Time)
    requires Surrounds(before, row, spec, lo, hi, now) && Replaced(before, after, spec, lo, hi, now, ts)
    requires cut in {lo, hi} && row.start <= from < cut < to <= row.end
    ensures forall r :: r in after && r.spec == spec ==> !(r.start <= from && to <= r.end)
  {
    CutCells(before, row, spec, lo, hi, now, after, ts, cut);
    forall r | r in after && r.spec == spec ensures !(r.start <= from && to <= r.end) {
      OneRowOneCell(after, spec, r, cut - 1, cut);
    }
  }

  lemma SameCovering(before: set<Row>, after: set<Row>, spec: int, specs: set<int>, from: Time, to: Time)
    requires OthersKept(before, after, spec)
    requires forall r :: r in after && r.spec == spec ==> !(r.start <= from && to <= r.end)
    ensures Covering(MarketCoverage(after, specs), from, to)
          == Covering(MarketCoverage(before, specs - {spec}), from, to)
  {
    var x, y := MarketCoverage(after, specs), MarketCoverage(before, specs - {spec});
    forall c | c in x && c.start <= from && to <= c.end ensures c in y {
      var r :| r in after && r.spec in specs && c == Slice(r.start, r.end, r.cell.status);
      assert r in before;
    }
    forall c | c in y ensures c in x {
      var r :| r in before && r.spec in specs - {spec} && c == Slice(r.start, r.end, r.cell.status);
      assert r in after;
    }
  }

  lemma SlotFits(f: Frame, b: Time, k: nat)
    requires Slotted(f) && f.grid.start(b) == b && k < f.count(b)
    ensures b + f.slot * k + f.slot <= f.grid.end(b)
  {
    assert At(b);
    var n := f.count(b);
    assert f.slot * k + f.slot == f.slot * (k + 1) && f.slot * (k + 1) <= f.slot * n;
  }

  lemma CutIndex(b: Time, slot: nat, cut: Time, n: nat) returns (k: nat)
    requires 0 < slot && b % slot == 0 && b <= cut < b + slot * n && cut % slot != 0
    ensures k < n && b + slot * k < cut < b + slot * k + slot
  {
    k := (cut - b) / slot;
    assert cut - b == slot * k + (cut - b) % slot;
    Multiples(b, slot, k);
    assert k >= n ==> slot * k >= slot * n;
  }

  /** The bucket and the slot that an off-grid bound cuts. */
  lemma CutSlot(f: Frame, cut: Time) returns (b: Time, k: nat)
    requires Slotted(f) && cut % f.slot != 0
    ensures f.grid.start(b) == b && b == f.grid.start(cut) && k < f.count(b)
    ensures b + f.slot * k < cut < b + f.slot * k + f.slot <= f.grid.end(b)
  {
    b := f.grid.start(cut);
    GridContains(f.grid, cut);
    assert At(b);
    k := CutIndex(b, f.slot, cut, f.count(b));
    SlotFits(f, b, k);
  }

  /** One interval from the bucket of the earlier instant to the end of the bucket of the later one. */
  lemma Surrounding(f: Frame, lo: Time, hi: Time, cut: Time) returns (from: Time, to: Time)
    requires Slotted(f) && lo < hi && cut in {lo, hi}
    ensures from <= lo && hi < to && from % f.slot == 0 && to % f.slot == 0
    ensures from <= f.grid.start(cut) && f.grid.end(f.grid.start(cut)) <= to
  {
    var g := f.grid;
    from, to := g.start(lo), g.end(g.start(hi));
    GridContains(g, lo);
    GridContains(g, hi);
    GridMonotone(g, lo, hi);
    GridEnd(g, g.start(hi));
    if g.start(lo) < g.start(hi) { GridEndBelow(g, g.start(lo), g.start(hi)); }
    assert At(from) && At(to);
  }

  // ---------------------------------------------------------------- a source that shows the slot

  /** A candle at the start of each of the first `n` slots but slot `k`. */
  function Others(b: Time, slot: nat, n: nat, k: nat, template: Bar): seq<Bar> {
    if n == 0 then [] else
      Others(b, slot, n - 1, k, template) + if n - 1 == k then [] else [template.(at := b + slot * (n - 1))]
  }

  lemma {:induction false} OthersAre(b: Time, slot: nat, n: nat, k: nat, template: Bar, m: Bar)
    ensures m in Others(b, slot, n, k, template)
       <==> exists j: nat :: At(j) && j < n && j != k && m == template.(at := b + slot * j)
  {
    if n > 0 {
      OthersAre(b, slot, n - 1, k, template, m);
      assert At(n - 1);
    }
  }

  lemma TwoSlots(u: Unit, b: Time)
    ensures 2 <= FrameOf(u).count(b)
  {}

  lemma {:induction false} SlotsApart(slot: nat, j: nat, k: nat)
    requires slot > 0 && j < k
    ensures slot * j < slot * k
    decreases k
  {
    assert slot * k == slot * (k - 1) + slot;
    if j < k - 1 { SlotsApart(slot, j, k - 1); }
  }

  lemma Midnight(t: Time)
    requires t % DAY == 0
    ensures GridOf(Day1).start(t) == t
  {
    FrameFields(Day1, t);
  }

  /** A candle at the start of a slot is observed there. */
  lemma SlotStart(u: Unit, t: Time, m: Bar)
    requires m.at == t && (DaySlots(u) ==> t % DAY == 0)
    ensures Observer(u)(m) == t
  {
    if DaySlots(u) { Midnight(t); }
  }

  /** All slots of the bucket are observed but slot `k`. */
  ghost predicate AllBut(b: Time, slot: nat, n: nat, observed: set<Time>, k: nat) {
    forall j: nat {:trigger At(j)} :: At(j) && j < n ==> (b + slot * j in observed <==> j != k)
  }

  lemma OthersSeen(b: Time, slot: nat, n: nat, k: nat, template: Bar, seen: Bar -> Time)
    requires slot > 0
    requires SeesSlots(seen, b, slot, n, template)
    ensures AllBut(b, slot, n, SeenAt(seen, Others(b, slot, n, k, template)), k)
  {
    var minutes := Others(b, slot, n, k, template);
    forall j: nat | At(j) && j < n ensures b + slot * j in SeenAt(seen, minutes) <==> j != k {
      OthersAre(b, slot, n, k, template, template.(at := b + slot * j));
      forall m | m in minutes ensures seen(m) != b + slot * k { OtherSeen(b, slot, n, k, template, seen, m); }
    }
  }

  lemma OtherSeen(b: Time, slot: nat, n: nat, k: nat, template: Bar, seen: Bar -> Time, m: Bar)
    requires slot > 0 && m in Others(b, slot, n, k, template)
    requires SeesSlots(seen, b, slot, n, template)
    ensures seen(m) != b + slot * k
  {
    OthersAre(b, slot, n, k, template, m);
    var i: nat :| At(i) && i < n && i != k && m == template.(at := b + slot * i);
    if i < k { SlotsApart(slot, i, k); } else { SlotsApart(slot, k, i); }
  }

  lemma OthersPlaced(g: Grid, b: Time, slot: nat, n: nat, k: nat, template: Bar)
    requires 2 <= n && forall j: nat {:trigger At(j)} :: At(j) && j < n ==> g.start(b + slot * j) == b
    ensures Others(b, slot, n, k, template) != []
    ensures forall m :: m in Others(b, slot, n, k, template) ==> g.start(m.at) == b
  {
    forall m | m in Others(b, slot, n, k, template) ensures g.start(m.at) == b {
      OthersAre(b, slot, n, k, template, m);
    }
    assert At(0) && At(1);
    var j := if k == 0 then 1 else 0;
    OthersAre(b, slot, n, k, template, template.(at := b + slot * j));
  }

  /** Candles at slot starts are seen there. */
  ghost predicate SeesSlots(seen: Bar -> Time, b: Time, slot: nat, n: nat, template: Bar) {
    forall j: nat {:trigger At(j)} :: At(j) && j < n ==> seen(template.(at := b + slot * j)) == b + slot * j
  }

  /** A source with a candle in every slot of the bucket but one. */
  lemma ShowingSource(f: Frame, seen: Bar -> Time, b: Time, k: nat, template: Bar)
    requires Slotted(f) && f.grid.start(b) == b && k < f.count(b) && 2 <= f.count(b)
    requires SeesSlots(seen, b, f.slot, f.count(b), template)
    ensures var minutes := Others(b, f.slot, f.count(b), k, template);
      && minutes != [] && (forall m :: m in minutes ==> f.grid.start(m.at) == b)
      && AllBut(b, f.slot, f.count(b), SeenAt(seen, minutes), k)
  {
    forall j: nat | At(j) && j < f.count(b) ensures f.grid.start(b + f.slot * j) == b { SlotInside(f, b, j); }
    OthersPlaced(f.grid, b, f.slot, f.count(b), k, template);
    OthersSeen(b, f.slot, f.count(b), k, template, seen);
  }

  lemma SlotSeen(u: Unit, f: Frame, b: Time, j: nat, t: Time, m: Bar)
    requires Slotted(f) && f.grid.start(b) == b && (DaySlots(u) ==> f.slot == DAY)
    requires j < f.count(b) && t == b + f.slot * j && m.at == t
    ensures Observer(u)(m) == t
  {
    SlotInside(f, b, j);
    SlotStart(u, t, m);
  }

  lemma UnitSees(u: Unit, f: Frame, b: Time, template: Bar)
    requires Slotted(f) && f.grid.start(b) == b && (DaySlots(u) ==> f.slot == DAY)
    ensures SeesSlots(Observer(u), b, f.slot, f.count(b), template)
  {
    forall j: nat | At(j) && j < f.count(b)
      ensures Observer(u)(template.(at := b + f.slot * j)) == b + f.slot * j
    {
      SlotSeen(u, f, b, j, b + f.slot * j, template.(at := b + f.slot * j));
    }
  }

  /** The rows of the table that shows the split: the interval, and for an unverified one a no-trade interval of a
      second spec beneath it. */
  function ShowingTable(spec: int, from: Time, to: Time, was: Cell): set<Row> {
    {Row(spec, from, to, was)}
    + if was.status == Unverified then {Row(spec + 1, from, to, was.(status := NoTrade))} else {}
  }

  lemma ShowingSlots(spec: int, from: Time, to: Time, was: Cell, slotStart: Time, slotEnd: Time)
    requires from <= slotStart && slotEnd <= to && from < to
    ensures Consistent(ShowingTable(spec, from, to, was))
    ensures Covering(MarketCoverage(ShowingTable(spec, from, to, was), {spec, spec + 1} - {spec}), slotStart, slotEnd)
         == if was.status == Unverified then {NoTrade} else {}
    ensures Covering(MarketCoverage(ShowingTable(spec, from, to, was), {spec, spec + 1}), slotStart, slotEnd)
         == {was.status} + if was.status == Unverified then {NoTrade} else {}
  {
    var rows := ShowingTable(spec, from, to, was);
    var r1, r2 := Row(spec, from, to, was), Row(spec + 1, from, to, was.(status := NoTrade));
    assert r1 in rows && (was.status == Unverified ==> r2 in rows);
    var both, second := MarketCoverage(rows, {spec, spec + 1}), MarketCoverage(rows, {spec, spec + 1} - {spec});
    assert Slice(from, to, was.status) in both;
    assert was.status == Unverified ==> Slice(from, to, NoTrade) in both && Slice(from, to, NoTrade) in second;
  }

  lemma QualityDiffers(q: Status)
    ensures var rest := if q == Unverified then {NoTrade} else {};
      WorstQuality([SlotQuality({q} + rest)]) != WorstQuality([SlotQuality(rest)])
  {}

  /** The two coverages of the slot: with and without the interval that was split. */
  ghost predicate SlotLoses(c1: set<Slice>, c2: set<Slice>, from: Time, to: Time, q: Status) {
    var rest := if q == Unverified then {NoTrade} else {};
    Covering(c1, from, to) == {q} + rest && Covering(c2, from, to) == rest
  }

  /** The quality of a candle from the coverage of its bucket. */
  function QualityBy(f: Frame, b: Time, observed: set<Time>, cov: set<Slice>): Status {
    WorstQuality(MissingSlots(b, f.slot, f.count(b), observed, cov))
  }

  lemma QualitiesDiffer(f: Frame, b: Time, observed: set<Time>, c1: set<Slice>, c2: set<Slice>, k: nat, at: Time,
                        q: Status)
    requires AllBut(b, f.slot, f.count(b), observed, k) && k < f.count(b) && at == b + f.slot * k
    requires SlotLoses(c1, c2, at, at + f.slot, q)
    ensures QualityBy(f, b, observed, c1) != QualityBy(f, b, observed, c2)
  {
    OnlySlot(b, f.slot, f.count(b), observed, c1, k);
    OnlySlot(b, f.slot, f.count(b), observed, c2, k);
    QualityDiffers(q);
  }

  lemma CandleChanges(u: Unit, minutes: seq<Bar>, c1: set<Slice>, c2: set<Slice>, b: Time)
    requires minutes != [] && forall m :: m in minutes ==> GridOf(u).start(m.at) == b
    requires QualityBy(FrameOf(u), b, ObservedIn(u, minutes), c1)
          != QualityBy(FrameOf(u), b, ObservedIn(u, minutes), c2)
    ensures ViewAt(u, Inputs(minutes, []), c1, b) != ViewAt(u, Inputs(minutes, []), c2, b)
  {
    ViewObserved(u, minutes, c1, b);
    ViewObserved(u, minutes, c2, b);
  }

  /** Where a bound off the grid cuts, and an interval that surrounds the range and the bucket it cuts. */
  lemma CutPlace(f: Frame, lo: Time, hi: Time, cut: Time) returns (b: Time, k: nat, from: Time, to: Time)
    requires Slotted(f) && lo < hi && cut in {lo, hi} && cut % f.slot != 0
    ensures f.grid.start(b) == b && k < f.count(b)
    ensures from <= lo && hi <= to && from % f.slot == 0 && to % f.slot == 0
    ensures from <= b + f.slot * k < cut < b + f.slot * k + f.slot <= to
  {
    b, k := CutSlot(f, cut);
    from, to := Surrounding(f, lo, hi, cut);
    assert f.slot * k >= 0;
  }

  /** A quality as a function of the coverage. */
  function QualityOf(f: Frame, b: Time, observed: set<Time>): set<Slice> -> Status {
    (cov: set<Slice>) => QualityBy(f, b, observed, cov)
  }

  /** However [lo, hi) is overwritten, nothing is recorded and the quality changes. */
  ghost predicate Unseen(quality: set<Slice> -> Status, spec: int, lo: Time, hi: Time, now: Cell, before: set<Row>) {
    forall after, ts :: Replaced(before, after, spec, lo, hi, now, ts) ==>
      && ts == []
      && quality(MarketCoverage(before, {spec, spec + 1})) != quality(MarketCoverage(after, {spec, spec + 1}))
  }

  lemma SplitUnseen(f: Frame, seen: Bar -> Time, spec: int, lo: Time, hi: Time, cut: Time, now: Cell, template: Bar)
    returns (before: set<Row>, minutes: seq<Bar>, b: Time)
    requires Slotted(f) && lo < hi && cut in {lo, hi} && cut % f.slot != 0
    requires forall b: Time {:trigger At(b)} :: At(b) && f.grid.start(b) == b ==>
               2 <= f.count(b) && SeesSlots(seen, b, f.slot, f.count(b), template)
    ensures Consistent(before) && AlignedRows(before, spec, f.slot)
    ensures minutes != [] && (forall m :: m in minutes ==> f.grid.start(m.at) == b)
    ensures Unseen(QualityOf(f, b, SeenAt(seen, minutes)), spec, lo, hi, now, before)
  {
    var k, from, to;
    b, k, from, to := CutPlace(f, lo, hi, cut);
    assert At(b);
    minutes := Others(b, f.slot, f.count(b), k, template);
    ShowingSource(f, seen, b, k, template);
    before := ShowingTable(spec, from, to, Earlier(now));
    ShowingRows(spec, from, to, Earlier(now), f.slot);
    SplitUnseenAt(f, SeenAt(seen, minutes), b, k, b + f.slot * k, spec, from, to, lo, hi, cut, now);
  }

  /** A classification with the same status that is not the same. */
  function Earlier(now: Cell): Cell { now.(assessedAt := now.assessedAt + 1) }

  lemma SplitUnseenAt(f: Frame, observed: set<Time>, b: Time, k: nat, at: Time, spec: int, from: Time, to: Time,
                      lo: Time, hi: Time, cut: Time, now: Cell)
    requires AllBut(b, f.slot, f.count(b), observed, k) && k < f.count(b) && at == b + f.slot * k
    requires from <= lo < hi <= to && cut in {lo, hi} && from <= at < cut < at + f.slot <= to
    ensures Unseen(QualityOf(f, b, observed), spec, lo, hi, now, ShowingTable(spec, from, to, Earlier(now)))
  {
    QualityDistinguishes(f, b, observed, k, at, now.status);
    UnseenAlways(QualityOf(f, b, observed), at, at + f.slot, spec, from, to, lo, hi, cut, Earlier(now), now);
  }

  lemma ShowingRows(spec: int, from: Time, to: Time, was: Cell, slot: nat)
    requires from < to && slot > 0 && from % slot == 0 && to % slot == 0
    ensures Consistent(ShowingTable(spec, from, to, was)) && AlignedRows(ShowingTable(spec, from, to, was), spec, slot)
  {}

  /** The quality tells the two coverages of a split slot apart. */
  ghost predicate Distinguishes(quality: set<Slice> -> Status, from: Time, to: Time, q: Status) {
    forall c1, c2 :: SlotLoses(c1, c2, from, to, q) ==> quality(c1) != quality(c2)
  }

  lemma QualityDistinguishes(f: Frame, b: Time, observed: set<Time>, k: nat, at: Time, q: Status)
    requires AllBut(b, f.slot, f.count(b), observed, k) && k < f.count(b) && at == b + f.slot * k
    ensures Distinguishes(QualityOf(f, b, observed), at, at + f.slot, q)
  {
    forall c1, c2 | SlotLoses(c1, c2, at, at + f.slot, q)
      ensures QualityOf(f, b, observed)(c1) != QualityOf(f, b, observed)(c2)
    {
      QualitiesDiffer(f, b, observed, c1, c2, k, at, q);
    }
  }

  lemma UnseenAlways(quality: set<Slice> -> Status, at: Time, end: Time, spec: int, from: Time, to: Time,
                     lo: Time, hi: Time, cut: Time, was: Cell, now: Cell)
    requires Distinguishes(quality, at, end, now.status)
    requires from <= lo < hi <= to && cut in {lo, hi} && from <= at < cut < end <= to
    requires was != now && was.status == now.status
    ensures Unseen(quality, spec, lo, hi, now, ShowingTable(spec, from, to, was))
  {
    var before := ShowingTable(spec, from, to, was);
    forall after, ts | Replaced(before, after, spec, lo, hi, now, ts)
      ensures ts == []
      ensures quality(MarketCoverage(before, {spec, spec + 1})) != quality(MarketCoverage(after, {spec, spec + 1}))
    {
      SplitLoses(spec, from, to, lo, hi, cut, was, now, after, ts, at, end);
    }
  }

  lemma UnitShows(u: Unit, b: Time, template: Bar)
    requires GridOf(u).start(b) == b
    ensures 2 <= FrameOf(u).count(b) && SeesSlots(Observer(u), b, FrameOf(u).slot, FrameOf(u).count(b), template)
  {
    UnitSlotted(u);
    FrameFields(u, b);
    TwoSlots(u, b);
    UnitSees(u, FrameOf(u), b, template);
  }

  /** The other end of the claim: for every unit, every status and every range with a bound off the unit's slot
      grid there are an aligned table and a source for which the overwrite records no transition, so enqueues
      nothing, and still changes a candle. Aligned bounds are exactly what completeness needs. */
  lemma MisalignedIsMissed(u: Unit, spec: int, lo: Time, hi: Time, cut: Time, now: Cell, template: Bar)
    returns (before: set<Row>, minutes: seq<Bar>, b: Time)
    requires lo < hi && cut in {lo, hi} && cut % FrameOf(u).slot != 0
    ensures Consistent(before) && AlignedRows(before, spec, FrameOf(u).slot)
    ensures forall after, ts :: Replaced(before, after, spec, lo, hi, now, ts) ==>
              && ts == []
              && ViewAt(u, Inputs(minutes, []), MarketCoverage(before, {spec, spec + 1}), b)
              != ViewAt(u, Inputs(minutes, []), MarketCoverage(after, {spec, spec + 1}), b)
  {
    UnitSlotted(u);
    forall c: Time | At(c) && GridOf(u).start(c) == c
      ensures 2 <= FrameOf(u).count(c) && SeesSlots(Observer(u), c, FrameOf(u).slot, FrameOf(u).count(c), template)
    {
      UnitShows(u, c, template);
    }
    before, minutes, b := SplitUnseen(FrameOf(u), Observer(u), spec, lo, hi, cut, now, template);
    forall after, ts | Replaced(before, after, spec, lo, hi, now, ts)
      ensures ViewAt(u, Inputs(minutes, []), MarketCoverage(before, {spec, spec + 1}), b)
           != ViewAt(u, Inputs(minutes, []), MarketCoverage(after, {spec, spec + 1}), b)
    {
      var c1, c2 := MarketCoverage(before, {spec, spec + 1}), MarketCoverage(after, {spec, spec + 1});
      var quality := QualityOf(FrameOf(u), b, ObservedIn(u, minutes));
      assert quality(c1) != quality(c2);
      CandleChanges(u, minutes, c1, c2, b);
    }
  }

  /** The effect of one silent split on the slot it cuts. */
  lemma SplitLoses(spec: int, from: Time, to: Time, lo: Time, hi: Time, cut: Time, was: Cell, now: Cell,
                   after: set<Row>, ts: seq<Transition>, slotStart: Time, slotEnd: Time)
    requires from <= lo < hi <= to && cut in {lo, hi} && was != now && was.status == now.status
    requires from <= slotStart < cut < slotEnd <= to
    requires Replaced(ShowingTable(spec, from, to, was), after, spec, lo, hi, now, ts)
    ensures ts == []
    ensures SlotLoses(MarketCoverage(ShowingTable(spec, from, to, was), {spec, spec + 1}),
                      MarketCoverage(after, {spec, spec + 1}), slotStart, slotEnd, now.status)
  {
    var before, row := ShowingTable(spec, from, to, was), Row(spec, from, to, was);
    ShowingSlots(spec, from, to, was, slotStart, slotEnd);
    SilentSplit(before, row, spec, lo, hi, now, after, ts);
    SplitSlot(before, row, spec, lo, hi, now, after, ts, {spec, spec + 1}, slotStart, slotEnd, cut);
  }

  // ---------------------------------------------------------------- daily specs

  lemma EnqueuedFrom(e: Transition, s: SpecUnit, revisions: set<Time>, r: RollupRanges.Range)
    requires r in Enqueued(e, s, revisions)
    ensures revisions != {}
    ensures r in RollupRanges.Affected(RollupRanges.Instants(ClampStart(e, revisions), ClampEnd(e, revisions)),
                                       AffectedUnits(s))
  {}

  /** A daily spec enqueues days, weeks and months only. */
  lemma DailySpecUnits(e: Transition, revisions: set<Time>, r: RollupRanges.Range)
    requires r in Enqueued(e, OneDay, revisions)
    ensures r.unit in {Day1, Week1, Month1}
  {
    EnqueuedFrom(e, OneDay, revisions, r);
    AffectedUnit(RollupRanges.Instants(ClampStart(e, revisions), ClampEnd(e, revisions)), AffectedUnits(OneDay), r);
  }

  lemma AffectedUnit(all: set<Time>, units: seq<Unit>, r: RollupRanges.Range)
    requires r in RollupRanges.Affected(all, units)
    ensures r.unit in units
  {
    var i := RollupRanges.CollectFrom(RollupRanges.ChunksOf(all), units, |units|, r);
    ChunksUnit(units[i], all, r);
  }

  lemma ChunksUnit(u: Unit, all: set<Time>, r: RollupRanges.Range)
    requires r in RollupRanges.ChunksOf(all)(u)
    ensures r.unit == u
  {
    UnitOf(u, GridOf(u), RollupRanges.Starts(GridOf(u), all), r);
  }

  lemma {:induction false} UnitOf(u: Unit, g: Grid, s: seq<Time>, r: RollupRanges.Range)
    requires r in RollupRanges.Chunks(u, g, s)
    ensures r.unit == u
    decreases |s|
  {
    var n := RollupRanges.RunLength(g, s, RollupRanges.MAX_BUCKETS);
    if r in RollupRanges.Chunks(u, g, s[n..]) { UnitOf(u, g, s[n..], r); }
  }

  /** The table with one missing day, and the transition that made it. */
  lemma FirstDay(spec: int, now: Cell)
    ensures Replaced({}, {Row(spec, 0, DAY, now)}, spec, 0, DAY, now, [Transition(None, 0, DAY)])
  {
    var row, ts := Row(spec, 0, DAY, now), [Transition(None, 0, DAY)];
    forall s, t ensures CellAt({row}, s, t) == Overwritten({}, spec, 0, DAY, now, s, t) {
      if Holds(row, s, t) { CellAtRow({row}, s, t, row); }
    }
    forall t ensures Touches(ts, t) <==> In(t, 0, DAY) { assert ts[0] == Transition(None, 0, DAY); }
  }

  /** A coverage overwrite with bounds on the unit's slot grid that changes the candle of bucket `b`. */
  ghost predicate Changes(u: Unit, before: set<Row>, after: set<Row>, spec: int, specs: set<int>, lo: Time, hi: Time,
                          cell: Cell, ts: seq<Transition>, inp: Inputs, revisions: set<Time>, b: Time) {
    && Consistent(before) && Replaced(before, after, spec, lo, hi, cell, ts)
    && AlignedRows(before, spec, Slot(u)) && lo % Slot(u) == 0 && hi % Slot(u) == 0
    && SourceStarts(inp) <= revisions
    && ViewAt(u, inp, MarketCoverage(before, specs), b) != ViewAt(u, inp, MarketCoverage(after, specs), b)
  }

  /** A range enqueued for one of the transitions holds the bucket. */
  ghost predicate Caught(u: Unit, s: SpecUnit, ts: seq<Transition>, revisions: set<Time>, b: Time) {
    exists i, r :: 0 <= i < |ts| && r in Enqueued(ts[i], s, revisions) && r.unit == u && r.start <= b < r.end
  }

  ghost predicate CompleteFor(u: Unit, s: SpecUnit) {
    forall before, after, spec, specs, lo, hi, cell, ts, inp, revisions, b ::
      Changes(u, before, after, spec, specs, lo, hi, cell, ts, inp, revisions, b) ==> Caught(u, s, ts, revisions, b)
  }

  lemma SeenAlone(seen: Bar -> Time, m: Bar)
    ensures SeenAt(seen, [m]) == {seen(m)}
  {
    assert m in [m];
    assert forall x :: x in [m] ==> x == m;
  }

  /** Declaring a first day missing changes the candle of a lone minute, whatever the unit up to a day. */
  lemma FirstDayShows(u: Unit, spec: int, now: Cell, m: Bar)
    requires !DaySlots(u) && now.status == Missing && m.at == 0
    ensures ViewAt(u, Inputs([m], []), MarketCoverage({}, {spec}), 0)
         != ViewAt(u, Inputs([m], []), MarketCoverage({Row(spec, 0, DAY, now)}, {spec}), 0)
  {
    FrameFields(u, 0);
    SeenAlone(Observer(u), m);
    FirstDayQualities(FrameOf(u), spec, now);
    CandleChanges(u, [m], MarketCoverage({}, {spec}), MarketCoverage({Row(spec, 0, DAY, now)}, {spec}), 0);
  }

  lemma FirstDayQualities(f: Frame, spec: int, now: Cell)
    requires f.slot == MINUTE && 2 <= f.count(0) && now.status == Missing
    ensures QualityBy(f, 0, {0}, MarketCoverage({}, {spec}))
         != QualityBy(f, 0, {0}, MarketCoverage({Row(spec, 0, DAY, now)}, {spec}))
  {
    var none, cov := MarketCoverage({}, {spec}), MarketCoverage({Row(spec, 0, DAY, now)}, {spec});
    assert Row(spec, 0, DAY, now) in {Row(spec, 0, DAY, now)};
    assert Slice(0, DAY, Missing) in cov;
    assert Missing in Covering(cov, 0 + MINUTE * 1, 0 + MINUTE * 1 + MINUTE);
    SlotListed(0, MINUTE, f.count(0), {0}, cov, 1);
    forall j: nat | At(j) && j < f.count(0)
      ensures SlotQuality(Covering(none, 0 + MINUTE * j, 0 + MINUTE * j + MINUTE)) == Unverified
    {}
    SlotsAlike(0, MINUTE, f.count(0), {0}, none, Unverified);
  }

  /** The candles of every unit read the coverage of daily specs: for each unit a daily spec leaves out, a missing
      first day changes a candle that no range of that spec covers. */
  lemma DailySpecMisses(u: Unit, spec: int, now: Cell, m: Bar)
    requires u !in AffectedUnits(OneDay) && now.status == Missing && m.at == 0
    ensures Changes(u, {}, {Row(spec, 0, DAY, now)}, spec, {spec}, 0, DAY, now, [Transition(None, 0, DAY)],
                    Inputs([m], []), {0}, 0)
    ensures !Caught(u, OneDay, [Transition(None, 0, DAY)], {0}, 0)
  {
    NotADay(u);
    FirstDay(spec, now);
    FirstDayShows(u, spec, now, m);
    NeverCaught(u, [Transition(None, 0, DAY)], {0}, 0);
  }

  lemma NotADay(u: Unit)
    requires u !in AffectedUnits(OneDay)
    ensures u !in {Day1, Week1, Month1} && !DaySlots(u) && Slot(u) == MINUTE
  {
    var days := AffectedUnits(OneDay);
    assert days[0] == Day1 && days[1] == Week1 && days[2] == Month1;
  }

  lemma NeverCaught(u: Unit, ts: seq<Transition>, revisions: set<Time>, b: Time)
    requires u !in {Day1, Week1, Month1}
    ensures !Caught(u, OneDay, ts, revisions, b)
  {
    forall i, r | 0 <= i < |ts| && r in Enqueued(ts[i], OneDay, revisions) ensures r.unit != u {
      DailySpecUnits(ts[i], revisions, r);
    }
  }

  /** Invalidation is complete for a unit exactly when the spec's changes enqueue that unit at all: for daily specs
      days, weeks and months and no other unit, for minute specs every unit. */
  lemma CompleteIffAffected(u: Unit, s: SpecUnit)
    ensures CompleteFor(u, s) <==> u in AffectedUnits(s)
  {
    if u in AffectedUnits(s) {
      AffectedIsComplete(u, s);
    } else {
      EveryUnit(u);
      var now := Cell(Missing, OtherEvidence(""), None, 0);
      var m := Bar(0, 0.0, 0.0, 0.0, 0.0, 0.0, 0.0, None, None, {}, Absent);
      DailySpecMisses(u, 0, now, m);
      NotComplete(u, s, {}, {Row(0, 0, DAY, now)}, 0, {0}, 0, DAY, now, [Transition(None, 0, DAY)], Inputs([m], []),
                  {0}, 0);
    }
  }

  lemma NotComplete(u: Unit, s: SpecUnit, before: set<Row>, after: set<Row>, spec: int, specs: set<int>, lo: Time,
                    hi: Time, cell: Cell, ts: seq<Transition>, inp: Inputs, revisions: set<Time>, b: Time)
    requires Changes(u, before, after, spec, specs, lo, hi, cell, ts, inp, revisions, b)
    requires !Caught(u, s, ts, revisions, b)
    ensures !CompleteFor(u, s)
  {}

  lemma AffectedIsComplete(u: Unit, s: SpecUnit)
    requires u in AffectedUnits(s)
    ensures CompleteFor(u, s)
  {
    forall before, after, spec, specs, lo, hi, cell, ts, inp, revisions, b
      | Changes(u, before, after, spec, specs, lo, hi, cell, ts, inp, revisions, b)
      ensures Caught(u, s, ts, revisions, b)
    {
      var i, r := InvalidationComplete(u, s, before, after, spec, specs, lo, hi, cell, ts, inp, revisions, b);
    }
  }

  lemma EveryUnit(u: Unit)
    ensures u in AffectedUnits(OneMinute)
  {
    var all := ALL_UNITS;
    match u {
      case Min3 => { assert all[0] == u; }
      case Min5 => { assert all[1] == u; }
      case Min10 => { assert all[2] == u; }
      case Min15 => { assert all[3] == u; }
      case Min30 => { assert all[4] == u; }
      case Hour1 => { assert all[5] == u; }
      case Hour4 => { assert all[6] == u; }
      case Day1 => { assert all[7] == u; }
      case Week1 => { assert all[8] == u; }
      case Month1 => { assert all[9] == u; }
    }
  }
}
