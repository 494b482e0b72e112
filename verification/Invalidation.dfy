/** Which roll-up buckets a coverage overwrite invalidates (`_enqueue_quality_transition_recomputation`),
    and when every bucket that changes is among them. */
module Invalidation {
  import opened Ordering
  import opened Calendar
  import opened Coverage
  import opened Rollup
  import opened RollupLocality
  import RollupRanges

  /** The candle unit of the target spec whose coverage changed. */
  datatype SpecUnit = OneMinute | OneDay

  const ALL_UNITS: seq<Unit> := [Min3, Min5, Min10, Min15, Min30, Hour1, Hour4, Day1, Week1, Month1]

  function AffectedUnits(s: SpecUnit): seq<Unit> {
    if s == OneDay then [Day1, Week1, Month1] else ALL_UNITS
  }

  /** The coverage slices of a market: those of all its candle specs together. */
  function MarketCoverage(rows: set<Row>, specs: set<int>): set<Slice> {
    set r | r in rows && r.spec in specs :: Slice(r.start, r.end, r.cell.status)
  }

  /** The clamp: never more than 32 days before the first or after the last source revision. */
  function ClampStart(e: Transition, revisions: set<Time>): Time
    requires revisions != {}
  {
    var bound := Least(revisions) - 32 * DAY;
    if e.start < bound then bound else e.start
  }

  function ClampEnd(e: Transition, revisions: set<Time>): Time
    requires revisions != {}
  {
    MinT(e.end, Greatest(revisions) + 32 * DAY)
  }

  function HasSource(revisions: set<Time>): RollupRanges.Range -> bool {
    (r: RollupRanges.Range) => exists t :: t in revisions && r.start <= t < r.end
  }

  /** The ranges enqueued for one transition. */
  function Enqueued(e: Transition, s: SpecUnit, revisions: set<Time>): seq<RollupRanges.Range> {
    if revisions == {} then [] else
      var lo, hi := ClampStart(e, revisions), ClampEnd(e, revisions);
      if lo >= hi then [] else
        Filter(RollupRanges.Affected(RollupRanges.Instants(lo, hi), AffectedUnits(s)), HasSource(revisions))
  }

  method KeepWithSource(ranges: seq<RollupRanges.Range>, revisions: set<Time>) returns (jobs: seq<RollupRanges.Range>)
    ensures jobs == Filter(ranges, HasSource(revisions))
  {
    jobs := [];
    for k := 0 to |ranges|
      invariant jobs == Filter(ranges[..k], HasSource(revisions))
    {
      FilterSnoc(ranges, k, HasSource(revisions));
      if exists t :: t in revisions && ranges[k].start <= t < ranges[k].end {
        jobs := jobs + [ranges[k]];
      }
    }
    FilterWhole(ranges, HasSource(revisions));
  }

  // ---------------------------------------------------------------- nothing else is enqueued

  /** The instant is at most 32 days before or after some source revisions. */
  ghost predicate Near(revisions: set<Time>, t: Time) {
    (exists x :: x in revisions && x - 32 * DAY <= t) && exists y :: y in revisions && t < y + 32 * DAY
  }

  /** There is a reason to recompute the range: it holds a source revision, and each of its buckets holds an instant of
      the transition that is near the revisions; it consists of whole buckets, of a unit that the spec affects. */
  ghost predicate Justified(e: Transition, s: SpecUnit, revisions: set<Time>, r: RollupRanges.Range) {
    && (s == OneDay ==> r.unit in {Day1, Week1, Month1})
    && (exists x :: x in revisions && r.start <= x < r.end)
    && IsStart(r.unit, r.start) && IsStart(r.unit, r.end) && r.start < r.end
    && forall b: Time :: r.start <= b < r.end && IsStart(r.unit, b) ==>
         exists t: Time :: e.start <= t < e.end && Near(revisions, t) && BucketStart(r.unit, t) == b
  }

  /** The clamp keeps exactly the instants of the transition that are near the revisions. */
  lemma ClampNear(e: Transition, revisions: set<Time>, t: Time)
    requires revisions != {}
    ensures ClampStart(e, revisions) <= t < ClampEnd(e, revisions) <==> e.start <= t < e.end && Near(revisions, t)
  {
    assert Least(revisions) in revisions && Greatest(revisions) in revisions;
  }

  lemma ChunkInstant(u: Unit, all: set<Time>, r: RollupRanges.Range, b: Time) returns (t: Time)
    requires r in RollupRanges.UnitChunks(u, all) && r.start <= b < r.end && IsStart(u, b)
    ensures t in all && BucketStart(u, t) == b
  {
    RollupRanges.AffectedExactly(u, all, b);
    assert GridOf(u).start(b) == b;
    t :| t in all && GridOf(u).start(t) == GridOf(u).start(b);
  }

  lemma ChunkWhole(u: Unit, all: set<Time>, r: RollupRanges.Range)
    requires r in RollupRanges.UnitChunks(u, all)
    ensures r.unit == u && IsStart(u, r.start) && IsStart(u, r.end) && r.start < r.end
  {
    RollupRanges.AffectedExactly(u, all, 0);
    assert RollupRanges.Whole(u, GridOf(u), r);
  }

  lemma EnqueuedFrom(e: Transition, s: SpecUnit, revisions: set<Time>, r: RollupRanges.Range) returns (u: Unit)
    requires r in Enqueued(e, s, revisions)
    ensures revisions != {} && u in AffectedUnits(s) && HasSource(revisions)(r)
    ensures r in RollupRanges.UnitChunks(u, RollupRanges.Instants(ClampStart(e, revisions), ClampEnd(e, revisions)))
  {
    var all := RollupRanges.Instants(ClampStart(e, revisions), ClampEnd(e, revisions));
    var i := RollupRanges.CollectFrom(RollupRanges.ChunksOf(all), AffectedUnits(s), |AffectedUnits(s)|, r);
    u := AffectedUnits(s)[i];
  }

  lemma ChunkJustified(e: Transition, revisions: set<Time>, u: Unit, all: set<Time>, r: RollupRanges.Range, b: Time)
    requires revisions != {} && all == RollupRanges.Instants(ClampStart(e, revisions), ClampEnd(e, revisions))
    requires r in RollupRanges.UnitChunks(u, all) && r.start <= b < r.end && IsStart(u, b)
    ensures exists t: Time :: e.start <= t < e.end && Near(revisions, t) && BucketStart(u, t) == b
  {
    var t := ChunkInstant(u, all, r, b);
    ClampNear(e, revisions, t);
  }

  lemma DailyUnits(u: Unit)
    ensures u in AffectedUnits(OneDay) ==> u in {Day1, Week1, Month1}
  {}

  lemma EnqueuedJustified(e: Transition, s: SpecUnit, revisions: set<Time>, r: RollupRanges.Range)
    requires r in Enqueued(e, s, revisions)
    ensures Justified(e, s, revisions, r)
  {
    var u := EnqueuedFrom(e, s, revisions, r);
    var all := RollupRanges.Instants(ClampStart(e, revisions), ClampEnd(e, revisions));
    ChunkWhole(u, all, r);
    if s == OneDay { DailyUnits(u); }
    forall b: Time | r.start <= b < r.end && IsStart(r.unit, b)
      ensures exists t: Time :: e.start <= t < e.end && Near(revisions, t) && BucketStart(r.unit, t) == b
    {
      ChunkJustified(e, revisions, u, all, r, b);
    }
  }

  /** `_enqueue_quality_transition_recomputation`: clamp, cut into ranges, skip those without source. */
  method Enqueue(e: Transition, s: SpecUnit, revisions: set<Time>) returns (jobs: seq<RollupRanges.Range>)
    ensures jobs == Enqueued(e, s, revisions)
    ensures forall r :: r in jobs ==> Justified(e, s, revisions, r)
  {
    forall r | r in Enqueued(e, s, revisions) ensures Justified(e, s, revisions, r) {
      EnqueuedJustified(e, s, revisions, r);
    }
    jobs := [];
    if revisions == {} { return; }
    var ranges := RollupRanges.AffectedRangesForInterval(ClampStart(e, revisions), ClampEnd(e, revisions),
                                                         AffectedUnits(s));
    jobs := KeepWithSource(ranges, revisions);
  }

  // ---------------------------------------------------------------- coverage and slots

  /** A candle itself, apart from its quality and completeness, does not depend on the coverage. */
  lemma ShortBar(f: Frame, minutes: seq<Bar>, c1: set<Slice>, c2: set<Slice>, b: Time)
    ensures ShortView(f, minutes, c1, b).Some? <==> ShortView(f, minutes, c2, b).Some?
    ensures ShortView(f, minutes, c1, b).Some? ==>
      ShortView(f, minutes, c1, b).value.bar == ShortView(f, minutes, c2, b).value.bar
  {}

  lemma {:induction false} DayBarsSame(f: Frame, inp: Inputs, c1: set<Slice>, c2: set<Slice>, ds: seq<Time>)
    ensures DayBars(f, inp, c1, ds) == DayBars(f, inp, c2, ds)
  {
    if ds != [] {
      ShortBar(f, inp.minutes, c1, c2, ds[0]);
      DayBarsSame(f, inp, c1, c2, ds[1..]);
    }
  }

  /** Some slot of the bucket at `b` is covered differently. */
  ghost predicate SlotDiffers(f: Frame, b: Time, c1: set<Slice>, c2: set<Slice>, k: nat) {
    && k < f.count(b)
    && Covering(c1, b + f.slot * k, b + f.slot * k + f.slot) != Covering(c2, b + f.slot * k, b + f.slot * k + f.slot)
  }

  lemma GroupDiffers(f: Frame, b: Time, o: seq<Bar>, c1: set<Slice>, c2: set<Slice>) returns (k: nat)
    requires o != [] && GroupView(b, o, f.slot, f.count(b), c1) != GroupView(b, o, f.slot, f.count(b), c2)
    ensures SlotDiffers(f, b, c1, c2, k)
  {
    if forall j: nat :: !SlotDiffers(f, b, c1, c2, j) {
      forall j: nat | At(j) && j < f.count(b)
        ensures Covering(c1, b + f.slot * j, b + f.slot * j + f.slot)
              == Covering(c2, b + f.slot * j, b + f.slot * j + f.slot)
      {
        assert !SlotDiffers(f, b, c1, c2, j);
      }
      MissingSame(b, f.slot, f.count(b), Times(o), c1, c2);
      assert false;
    }
    k :| SlotDiffers(f, b, c1, c2, k);
  }

  /** Every bound of the spec's intervals is on the slot grid. */
  ghost predicate AlignedRows(rows: set<Row>, spec: int, slot: nat) {
    0 < slot && forall r :: r in rows && r.spec == spec ==> r.start % slot == 0 && r.end % slot == 0
  }

  lemma WholeSlot(from: Time, end: Time, slot: nat)
    requires 0 < slot && from % slot == 0 && end % slot == 0 && from < end
    ensures from + slot <= end
  {
    var p, q := from / slot, end / slot;
    assert from == p * slot && end == q * slot;
    assert q <= p ==> q * slot <= p * slot;
    assert (p + 1) * slot <= q * slot;
  }

  /** On aligned bounds a slot is covered by a row exactly when its first instant is. */
  lemma SlotHeld(rows: set<Row>, spec: int, slot: nat, r: Row, from: Time)
    requires AlignedRows(rows, spec, slot) && r in rows && r.spec == spec && from % slot == 0
    ensures r.start <= from && from + slot <= r.end <==> Holds(r, spec, from)
  {
    if from < r.end { WholeSlot(from, r.end, slot); }
  }

  lemma AlignedAfter(before: set<Row>, after: set<Row>, spec: int, lo: Time, hi: Time, slot: nat)
    requires AlignedRows(before, spec, slot) && lo % slot == 0 && hi % slot == 0 && BoundsFrom(before, after, lo, hi)
    ensures AlignedRows(after, spec, slot)
  {
    forall a | a in after && a.spec == spec ensures a.start % slot == 0 && a.end % slot == 0 {
      if a.start !in {lo, hi} { var r :| r in before && r.spec == a.spec && r.start == a.start; }
      if a.end !in {lo, hi} { var r :| r in before && r.spec == a.spec && r.end == a.end; }
    }
  }

  /** What covers a slot after an overwrite already covered it before, unless the status of the slot's
      first instant changed. */
  lemma CoveringKept(x: set<Row>, y: set<Row>, spec: int, specs: set<int>, slot: nat, from: Time, q: Status)
    requires Consistent(x) && Consistent(y) && OthersKept(x, y, spec)
    requires AlignedRows(x, spec, slot) && AlignedRows(y, spec, slot) && from % slot == 0
    requires StatusAt(x, spec, from) == StatusAt(y, spec, from)
    requires q in Covering(MarketCoverage(x, specs), from, from + slot)
    ensures q in Covering(MarketCoverage(y, specs), from, from + slot)
  {
    var c :| c in MarketCoverage(x, specs) && c.start <= from && from + slot <= c.end && c.status == q;
    var r :| r in x && r.spec in specs && c == Slice(r.start, r.end, r.cell.status);
    if r.spec != spec {
      assert r in y && c in MarketCoverage(y, specs);
    } else {
      SlotHeld(x, spec, slot, r, from);
      CellAtRow(x, spec, from, r);
      assert Covered(y, spec, from);
      var p :| p in y && Holds(p, spec, from);
      assert Holds(p, spec, from);
      CellAtRow(y, spec, from, p);
      SlotHeld(y, spec, slot, p, from);
      assert Slice(p.start, p.end, p.cell.status) in MarketCoverage(y, specs);
    }
  }

  lemma OthersKeptSym(x: set<Row>, y: set<Row>, spec: int)
    requires OthersKept(x, y, spec)
    ensures OthersKept(y, x, spec)
  {}

  /** A slot covered differently begins at an instant that a transition holds. */
  lemma SlotTouched(before: set<Row>, after: set<Row>, spec: int, specs: set<int>, lo: Time, hi: Time, cell: Cell,
                    ts: seq<Transition>, slot: nat, from: Time)
    requires Consistent(before) && Replaced(before, after, spec, lo, hi, cell, ts)
    requires AlignedRows(before, spec, slot) && lo % slot == 0 && hi % slot == 0 && from % slot == 0
    requires Covering(MarketCoverage(before, specs), from, from + slot)
          != Covering(MarketCoverage(after, specs), from, from + slot)
    ensures Touches(ts, from)
  {
    AlignedAfter(before, after, spec, lo, hi, slot);
    assert CellAt(after, spec, from) == Overwritten(before, spec, lo, hi, cell, spec, from);
    if StatusAt(before, spec, from) == StatusAt(after, spec, from) {
      OthersKeptSym(before, after, spec);
      var x := Covering(MarketCoverage(before, specs), from, from + slot);
      var y := Covering(MarketCoverage(after, specs), from, from + slot);
      forall q | q in x ensures q in y { CoveringKept(before, after, spec, specs, slot, from, q); }
      forall q | q in y ensures q in x { CoveringKept(after, before, spec, specs, slot, from, q); }
      assert false;
    }
  }

  // ---------------------------------------------------------------- the bucket has a source

  /** The starts of all source candles. */
  function SourceStarts(inp: Inputs): set<Time> {
    (set x | x in inp.minutes :: x.at) + (set v | v in inp.dailies :: v.bar.at)
  }

  lemma GroupHasSource(g: Grid, inp: Inputs, b: Time) returns (s: Time)
    requires Group(g, inp.minutes, b) != []
    ensures s in SourceStarts(inp) && g.start(s) == b
  {
    var o := Group(g, inp.minutes, b);
    StableSortMembers(Filter(inp.minutes, InBucket(g, b)), ByStart);
    assert o[0] in o;
    s := o[0].at;
  }

  lemma DayHasSource(long: Grid, day: Grid, inp: Inputs, b: Time) returns (s: Time)
    requires Nests(long, day) && DaysOf(long, DayKeys(day, inp), b) != []
    ensures s in SourceStarts(inp) && long.start(s) == b
  {
    var ds := DaysOf(long, DayKeys(day, inp), b);
    assert ds[0] in ds;
    if x :| x in inp.minutes && day.start(x.at) == ds[0] {
      assert At(x.at);
      s := x.at;
    } else {
      var v :| v in inp.dailies && v.bar.at == ds[0];
      s := v.bar.at;
    }
  }

  /** A candle that the coverage changes has a source candle in its bucket and a slot that is covered
      differently. */
  lemma ChangedView(u: Unit, inp: Inputs, c1: set<Slice>, c2: set<Slice>, b: Time) returns (s: Time, k: nat)
    requires ViewAt(u, inp, c1, b) != ViewAt(u, inp, c2, b)
    ensures s in SourceStarts(inp) && GridOf(u).start(s) == b
    ensures SlotDiffers(FrameOf(u), b, c1, c2, k)
  {
    var f := FrameOf(u);
    if DaySlots(u) {
      var ds := DaysOf(f.grid, DayKeys(GridOf(Day1), inp), b);
      DayBarsSame(FrameOf(Day1), inp, c1, c2, ds);
      UnitNests(u);
      s := DayHasSource(f.grid, GridOf(Day1), inp, b);
      k := GroupDiffers(f, b, DayBars(FrameOf(Day1), inp, c1, ds), c1, c2);
    } else {
      s := GroupHasSource(f.grid, inp, b);
      k := GroupDiffers(f, b, Group(f.grid, inp.minutes, b), c1, c2);
    }
  }

  // ---------------------------------------------------------------- enqueued

  lemma ClampKeeps(e: Transition, revisions: set<Time>, b: Time, from: Time, source: Time)
    requires In(from, e.start, e.end) && source in revisions
    requires b <= from < b + 31 * DAY && b <= source < b + 31 * DAY
    ensures ClampStart(e, revisions) <= from < ClampEnd(e, revisions)
  {}

  /** An affected range that holds an instant's bucket holds all of it. */
  lemma RangeAround(u: Unit, g: Grid, all: set<Time>, from: Time) returns (r: RollupRanges.Range)
    requires g == GridOf(u) && Tiling(g) && from in all
    ensures r in RollupRanges.UnitChunks(u, all) && r.unit == u
    ensures r.start <= g.start(from) && g.start(from) < g.end(g.start(from)) <= r.end
  {
    RollupRanges.AffectedExactly(u, all, from);
    r :| r in RollupRanges.UnitChunks(u, all) && r.start <= GridOf(u).start(from) < r.end;
    assert RollupRanges.Whole(u, GridOf(u), r);
    GridContains(g, from);
    GridEndBelow(g, g.start(from), r.end);
  }

  lemma EnqueuedHas(u: Unit, s: SpecUnit, e: Transition, revisions: set<Time>, r: RollupRanges.Range, source: Time)
    requires u in AffectedUnits(s) && source in revisions && r.start <= source < r.end
    requires ClampStart(e, revisions) < ClampEnd(e, revisions)
    requires r in RollupRanges.UnitChunks(u, RollupRanges.Instants(ClampStart(e, revisions), ClampEnd(e, revisions)))
    ensures r in Enqueued(e, s, revisions)
  {
    AffectedHas(u, AffectedUnits(s), RollupRanges.Instants(ClampStart(e, revisions), ClampEnd(e, revisions)), r);
    assert HasSource(revisions)(r);
  }

  lemma AffectedHas(u: Unit, units: seq<Unit>, all: set<Time>, r: RollupRanges.Range)
    requires u in units && r in RollupRanges.UnitChunks(u, all)
    ensures r in RollupRanges.Affected(all, units)
  {
    var i :| 0 <= i < |units| && units[i] == u;
    RollupRanges.CollectHas(RollupRanges.ChunksOf(all), units, |units|, i, r);
  }

  /** A bucket holding both a source candle and an instant of the transition lies in an enqueued range. */
  lemma BucketEnqueued(u: Unit, s: SpecUnit, g: Grid, e: Transition, revisions: set<Time>, b: Time, from: Time,
                       source: Time)
    returns (r: RollupRanges.Range)
    requires u in AffectedUnits(s) && In(from, e.start, e.end) && source in revisions
    requires g == GridOf(u) && Tiling(g) && g.start(from) == b && g.start(source) == b && g.end(b) <= b + 31 * DAY
    ensures r in Enqueued(e, s, revisions) && r.unit == u && r.start <= b < r.end
  {
    GridContains(g, from);
    GridContains(g, source);
    ClampKeeps(e, revisions, b, from, source);
    r := RangeAround(u, g, RollupRanges.Instants(ClampStart(e, revisions), ClampEnd(e, revisions)), from);
    EnqueuedHas(u, s, e, revisions, r, source);
  }

  lemma ShortBucket(u: Unit, b: Time)
    requires GridOf(u).start(b) == b
    ensures GridOf(u).end(b) <= b + 31 * DAY
  {
    BucketSpan(u, b);
  }

  lemma SlotInside(f: Frame, b: Time, k: nat)
    requires Slotted(f) && f.grid.start(b) == b && k < f.count(b)
    ensures f.grid.start(b + f.slot * k) == b && (b + f.slot * k) % f.slot == 0
  {
    assert At(b);
    var n := f.count(b);
    assert f.slot * k + f.slot == f.slot * (k + 1) && f.slot * (k + 1) <= f.slot * n;
    GridUnique(f.grid, b, b + f.slot * k);
    Multiples(b, f.slot, k);
  }

  lemma Multiples(b: Time, slot: nat, k: nat)
    requires 0 < slot && b % slot == 0
    ensures (b + slot * k) % slot == 0
  {
    var q := b / slot;
    assert b == q * slot;
    assert (q + k) * slot == b + slot * k;
    Remainder(b + slot * k, q + k, slot);
  }

  /** A bucket with a slot covered differently holds an instant of a transition. */
  lemma BucketTouched(f: Frame, before: set<Row>, after: set<Row>, spec: int, specs: set<int>, lo: Time, hi: Time,
                      cell: Cell, ts: seq<Transition>, b: Time, k: nat)
    returns (i: nat, from: Time)
    requires Slotted(f) && f.grid.start(b) == b
    requires Consistent(before) && Replaced(before, after, spec, lo, hi, cell, ts)
    requires AlignedRows(before, spec, f.slot) && lo % f.slot == 0 && hi % f.slot == 0
    requires SlotDiffers(f, b, MarketCoverage(before, specs), MarketCoverage(after, specs), k)
    ensures i < |ts| && In(from, ts[i].start, ts[i].end) && f.grid.start(from) == b
  {
    SlotInside(f, b, k);
    from := b + f.slot * k;
    SlotTouched(before, after, spec, specs, lo, hi, cell, ts, f.slot, from);
    i :| 0 <= i < |ts| && In(from, ts[i].start, ts[i].end);
  }

  /** Invalidation is complete: when the interval bounds lie on the unit's slot grid (minutes for units up
      to a day, days for weeks and months), every candle that a coverage overwrite changes lies in a
      range enqueued for one of its transitions, despite the clamp and the skipped ranges. */
  lemma InvalidationComplete(u: Unit, s: SpecUnit, before: set<Row>, after: set<Row>, spec: int, specs: set<int>,
                             lo: Time, hi: Time, cell: Cell, ts: seq<Transition>, inp: Inputs, revisions: set<Time>,
                             b: Time)
    returns (i: nat, r: RollupRanges.Range)
    requires Consistent(before) && Replaced(before, after, spec, lo, hi, cell, ts) && u in AffectedUnits(s)
    requires AlignedRows(before, spec, Slot(u)) && lo % Slot(u) == 0 && hi % Slot(u) == 0
    requires SourceStarts(inp) <= revisions
    requires ViewAt(u, inp, MarketCoverage(before, specs), b) != ViewAt(u, inp, MarketCoverage(after, specs), b)
    ensures i < |ts| && r in Enqueued(ts[i], s, revisions) && r.unit == u && r.start <= b < r.end
  {
    var source, k := ChangedView(u, inp, MarketCoverage(before, specs), MarketCoverage(after, specs), b);
    UnitSlotted(u);
    FrameFields(u, b);
    GridContains(GridOf(u), source);
    var from;
    i, from := BucketTouched(FrameOf(u), before, after, spec, specs, lo, hi, cell, ts, b, k);
    ShortBucket(u, b);
    r := BucketEnqueued(u, s, GridOf(u), ts[i], revisions, b, from, source);
  }
}
