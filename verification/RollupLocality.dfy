/** What one rolled-up candle depends on: only the source and the coverage inside its bucket. */
module RollupLocality {
  import opened Ordering
  import opened Calendar
  import opened Coverage
  import opened Rollup

  function BarIn(lo: Time, hi: Time): Bar -> bool { (x: Bar) => lo <= x.at < hi }
  function ViewIn(lo: Time, hi: Time): View -> bool { (v: View) => lo <= v.bar.at < hi }
  function ViewAtTime(t: Time): View -> bool { (v: View) => v.bar.at == t }

  /** The source candles that start in [lo, hi). */
  function Restrict(inp: Inputs, lo: Time, hi: Time): Inputs {
    Inputs(Filter(inp.minutes, BarIn(lo, hi)), Filter(inp.dailies, ViewIn(lo, hi)))
  }

  /** The coverage snapshot of [lo, hi): overlapping slices, clipped to it. */
  function ClipCoverage(cov: set<Slice>, lo: Time, hi: Time): set<Slice> {
    set c | c in cov && c.start < hi && lo < c.end :: Slice(MaxT(c.start, lo), MinT(c.end, hi), c.status)
  }

  /** Slots are positive, tile their bucket and lie on one grid. */
  ghost predicate Slotted(f: Frame) {
    && Tiling(f.grid) && 0 < f.slot
    && forall b: Time {:trigger At(b)} :: At(b) && f.grid.start(b) == b ==>
         b + f.slot * f.count(b) == f.grid.end(b) && b % f.slot == 0
  }

  lemma FrameFields(u: Unit, b: Time)
    ensures FrameOf(u).slot == Slot(u) && FrameOf(u).count(b) == SlotCount(u, b)
    ensures FrameOf(u).grid.start(b) == BucketStart(u, b) && FrameOf(u).grid.end(b) == BucketEnd(u, b)
  {}

  lemma Commute(x: nat, y: nat)
    ensures x * y == y * x
  {}

  lemma UnitSlot(u: Unit, f: Frame, b: Time)
    requires f.slot == Slot(u) && f.count(b) == SlotCount(u, b) && f.grid.end(b) == BucketEnd(u, b)
    requires IsStart(u, b)
    ensures b + f.slot * f.count(b) == f.grid.end(b) && b % f.slot == 0
  {
    SlotsTile(u, b);
    Commute(SlotCount(u, b), Slot(u));
  }

  lemma UnitSlotted(u: Unit)
    ensures Slotted(FrameOf(u))
  {
    UnitGrid(u);
    forall b: Time | At(b) && FrameOf(u).grid.start(b) == b
      ensures b + FrameOf(u).slot * FrameOf(u).count(b) == FrameOf(u).grid.end(b) && b % FrameOf(u).slot == 0
    {
      FrameFields(u, b);
      UnitSlot(u, FrameOf(u), b);
    }
  }

  /** Weeks and months consist of whole days. */
  ghost predicate Nests(long: Grid, day: Grid) {
    && (forall b: Time {:trigger At(b)} :: At(b) && long.start(b) == b ==> day.start(b) == b)
    && (forall t: Time {:trigger At(t)} :: At(t) ==> long.start(day.start(t)) == long.start(t))
  }

  lemma UnitNests(u: Unit)
    requires DaySlots(u)
    ensures Nests(GridOf(u), GridOf(Day1))
  {
    forall b: Time | At(b) && GridOf(u).start(b) == b ensures GridOf(Day1).start(b) == b {
      DayStartOfLong(u, b);
    }
    forall t: Time | At(t) ensures GridOf(u).start(GridOf(Day1).start(t)) == GridOf(u).start(t) {
      DayNests(u, t);
    }
  }

  // ---------------------------------------------------------------- clipped coverage

  lemma ClipCovering(cov: set<Slice>, lo: Time, hi: Time, from: Time, to: Time)
    requires lo <= from < to <= hi
    ensures Covering(ClipCoverage(cov, lo, hi), from, to) == Covering(cov, from, to)
  {
    var clip := ClipCoverage(cov, lo, hi);
    forall q | q in Covering(clip, from, to) ensures q in Covering(cov, from, to) {
      var d :| d in clip && d.start <= from && to <= d.end && d.status == q;
      var c :| c in cov && c.start < hi && lo < c.end && d == Slice(MaxT(c.start, lo), MinT(c.end, hi), c.status);
      assert c.start <= from && to <= c.end;
    }
    forall q | q in Covering(cov, from, to) ensures q in Covering(clip, from, to) {
      var c :| c in cov && c.start <= from && to <= c.end && c.status == q;
      var d := Slice(MaxT(c.start, lo), MinT(c.end, hi), c.status);
      assert d in clip && d.start <= from && to <= d.end;
    }
  }

  /** Slots are judged alike by two coverages that cover each of them alike. */
  lemma {:induction false} MissingSame(b: Time, slot: nat, n: nat, observed: set<Time>, c1: set<Slice>, c2: set<Slice>)
    requires forall k: nat {:trigger At(k)} :: At(k) && k < n ==>
               Covering(c1, b + slot * k, b + slot * k + slot) == Covering(c2, b + slot * k, b + slot * k + slot)
    ensures MissingSlots(b, slot, n, observed, c1) == MissingSlots(b, slot, n, observed, c2)
  {
    if n > 0 {
      assert At(n - 1);
      MissingSame(b, slot, n - 1, observed, c1, c2);
    }
  }

  lemma SlotEnd(slot: nat, k: nat, n: nat)
    requires k < n
    ensures slot * k + slot <= slot * n
  {
    assert slot * k + slot == slot * (k + 1) && slot * (k + 1) <= slot * n;
  }

  lemma MissingClip(b: Time, slot: nat, n: nat, observed: set<Time>, cov: set<Slice>, lo: Time, hi: Time)
    requires 0 < slot && lo <= b && b + slot * n <= hi
    ensures MissingSlots(b, slot, n, observed, ClipCoverage(cov, lo, hi)) == MissingSlots(b, slot, n, observed, cov)
  {
    var clip := ClipCoverage(cov, lo, hi);
    forall k: nat | At(k) && k < n
      ensures Covering(clip, b + slot * k, b + slot * k + slot) == Covering(cov, b + slot * k, b + slot * k + slot)
    {
      SlotEnd(slot, k, n);
      ClipCovering(cov, lo, hi, b + slot * k, b + slot * k + slot);
    }
    MissingSame(b, slot, n, observed, clip, cov);
  }

  lemma BucketInside(f: Frame, b: Time, lo: Time, hi: Time)
    requires Slotted(f) && f.grid.start(lo) == lo && f.grid.start(hi) == hi && f.grid.start(b) == b && lo <= b < hi
    ensures f.grid.end(b) <= hi && b + f.slot * f.count(b) <= hi
  {
    GridEndBelow(f.grid, b, hi);
    assert At(b);
  }

  lemma GroupClip(f: Frame, b: Time, o: seq<Bar>, cov: set<Slice>, lo: Time, hi: Time)
    requires Slotted(f) && f.grid.start(lo) == lo && f.grid.start(hi) == hi && f.grid.start(b) == b && lo <= b < hi
    requires o != []
    ensures GroupView(b, o, f.slot, f.count(b), ClipCoverage(cov, lo, hi)) == GroupView(b, o, f.slot, f.count(b), cov)
  {
    BucketInside(f, b, lo, hi);
    MissingClip(b, f.slot, f.count(b), Times(o), cov, lo, hi);
  }

  // ---------------------------------------------------------------- restricted source

  /** A candle of a bucket inside [lo, hi) starts inside [lo, hi). */
  lemma InBucketIn(g: Grid, lo: Time, hi: Time, b: Time, t: Time)
    requires Tiling(g) && g.start(lo) == lo && g.start(hi) == hi && g.start(t) == b
    ensures lo <= b < hi <==> lo <= t < hi
    ensures g.start(b) == b
  {
    GridContains(g, t);
    if lo <= t { GridMonotone(g, lo, t); }
    if b < hi { GridEndBelow(g, b, hi); }
  }

  lemma GroupLocal(g: Grid, minutes: seq<Bar>, lo: Time, hi: Time, b: Time)
    requires Tiling(g) && g.start(lo) == lo && g.start(hi) == hi
    ensures Group(g, Filter(minutes, BarIn(lo, hi)), b) == if lo <= b < hi then Group(g, minutes, b) else []
    ensures Group(g, minutes, b) != [] ==> g.start(b) == b
  {
    var p, q := BarIn(lo, hi), InBucket(g, b);
    if lo <= b < hi {
      forall x | x in minutes && q(x) ensures p(x) { InBucketIn(g, lo, hi, b, x.at); }
      FilterFilter(minutes, p, q);
    } else {
      forall x | x in Filter(minutes, p) ensures !q(x) {
        if q(x) { InBucketIn(g, lo, hi, b, x.at); }
      }
      FilterNone(Filter(minutes, p), q);
    }
    var o := Group(g, minutes, b);
    if o != [] {
      StableSortMembers(Filter(minutes, q), ByStart);
      assert o[0] in o && q(o[0]);
      GridContains(g, o[0].at);
    }
  }

  lemma ShortLocal(f: Frame, minutes: seq<Bar>, cov: set<Slice>, lo: Time, hi: Time, b: Time)
    requires Slotted(f) && f.grid.start(lo) == lo && f.grid.start(hi) == hi
    ensures ShortView(f, Filter(minutes, BarIn(lo, hi)), ClipCoverage(cov, lo, hi), b)
         == if lo <= b < hi then ShortView(f, minutes, cov, b) else None
  {
    GroupLocal(f.grid, minutes, lo, hi, b);
    var o := Group(f.grid, minutes, b);
    if lo <= b < hi && o != [] { GroupClip(f, b, o, cov, lo, hi); }
  }

  lemma {:induction false} LastDailyIs(dailies: seq<View>, d: Time)
    ensures var here := Filter(dailies, ViewAtTime(d));
      LastDaily(dailies, d) == if here == [] then None else Some(here[|here| - 1])
  {
    if dailies != [] {
      var n := |dailies| - 1;
      var front, last := dailies[..n], dailies[n];
      assert dailies == front + [last];
      FilterConcat(front, [last], ViewAtTime(d));
      LastDailyIs(front, d);
    }
  }

  lemma LastDailyLocal(dailies: seq<View>, lo: Time, hi: Time, d: Time)
    ensures LastDaily(Filter(dailies, ViewIn(lo, hi)), d) == if lo <= d < hi then LastDaily(dailies, d) else None
  {
    var p, q := ViewIn(lo, hi), ViewAtTime(d);
    LastDailyIs(dailies, d);
    LastDailyIs(Filter(dailies, p), d);
    if lo <= d < hi {
      FilterFilter(dailies, p, q);
    } else {
      FilterNone(Filter(dailies, p), q);
    }
  }

  lemma DayLocal(f: Frame, inp: Inputs, cov: set<Slice>, lo: Time, hi: Time, d: Time)
    requires Slotted(f) && f.grid.start(lo) == lo && f.grid.start(hi) == hi
    ensures DayView(f, Restrict(inp, lo, hi), ClipCoverage(cov, lo, hi), d)
         == if lo <= d < hi then DayView(f, inp, cov, d) else None
  {
    LastDailyLocal(inp.dailies, lo, hi, d);
    ShortLocal(f, inp.minutes, cov, lo, hi, d);
  }

  lemma DayKeysLocal(g: Grid, inp: Inputs, lo: Time, hi: Time, d: Time)
    requires Tiling(g) && g.start(lo) == lo && g.start(hi) == hi
    ensures d in DayKeys(g, Restrict(inp, lo, hi)) <==> d in DayKeys(g, inp) && lo <= d < hi
  {
    forall x: Bar | x in inp.minutes && g.start(x.at) == d ensures lo <= d < hi <==> lo <= x.at < hi {
      InBucketIn(g, lo, hi, d, x.at);
    }
  }

  lemma {:induction false} DayBarsLocal(f: Frame, inp: Inputs, cov: set<Slice>, lo: Time, hi: Time, ds: seq<Time>)
    requires Slotted(f) && f.grid.start(lo) == lo && f.grid.start(hi) == hi
    requires forall i :: 0 <= i < |ds| ==> lo <= ds[i] < hi
    ensures DayBars(f, Restrict(inp, lo, hi), ClipCoverage(cov, lo, hi), ds) == DayBars(f, inp, cov, ds)
  {
    if ds != [] {
      DayLocal(f, inp, cov, lo, hi, ds[0]);
      DayBarsLocal(f, inp, cov, lo, hi, ds[1..]);
    }
  }

  lemma DaysLocal(long: Grid, day: Grid, inp: Inputs, lo: Time, hi: Time, b: Time)
    requires Tiling(long) && Tiling(day) && Nests(long, day) && long.start(lo) == lo && long.start(hi) == hi
    ensures DaysOf(long, DayKeys(day, Restrict(inp, lo, hi)), b)
         == if lo <= b < hi then DaysOf(long, DayKeys(day, inp), b) else []
    ensures lo <= b < hi ==> forall d :: d in DaysOf(long, DayKeys(day, inp), b) ==> lo <= d < hi
  {
    assert At(lo) && At(hi);
    var r, s := DaysOf(long, DayKeys(day, Restrict(inp, lo, hi)), b), DaysOf(long, DayKeys(day, inp), b);
    forall d: Time | long.start(d) == b ensures lo <= b < hi <==> lo <= d < hi {
      InBucketIn(long, lo, hi, b, d);
    }
    forall d: Time ensures d in r <==> lo <= b < hi && d in s {
      DayKeysLocal(day, inp, lo, hi, d);
    }
    assert lo <= b < hi ==> forall d: int :: d in r <==> d in s;
    if lo <= b < hi {
      IncreasingUnique(r, s);
    } else {
      assert r == [] by { assert forall d: int :: d !in r; }
    }
  }

  lemma DaysStart(long: Grid, keys: set<Time>, b: Time)
    requires Tiling(long)
    ensures DaysOf(long, keys, b) != [] ==> long.start(b) == b
  {
    var ds := DaysOf(long, keys, b);
    if ds != [] {
      assert ds[0] in ds;
      GridContains(long, ds[0]);
    }
  }

  lemma LongBarsLocal(long: Grid, day: Frame, inp: Inputs, cov: set<Slice>, lo: Time, hi: Time, b: Time)
    requires Tiling(long) && Slotted(day) && Nests(long, day.grid)
    requires long.start(lo) == lo && long.start(hi) == hi
    ensures DayBars(day, Restrict(inp, lo, hi), ClipCoverage(cov, lo, hi),
                    DaysOf(long, DayKeys(day.grid, Restrict(inp, lo, hi)), b))
         == if lo <= b < hi then DayBars(day, inp, cov, DaysOf(long, DayKeys(day.grid, inp), b)) else []
  {
    assert At(lo) && At(hi);
    DaysLocal(long, day.grid, inp, lo, hi, b);
    if lo <= b < hi {
      var ds := DaysOf(long, DayKeys(day.grid, inp), b);
      assert forall i :: 0 <= i < |ds| ==> ds[i] in ds;
      DayBarsLocal(day, inp, cov, lo, hi, ds);
    }
  }

  lemma LongLocal(long: Frame, day: Frame, inp: Inputs, cov: set<Slice>, lo: Time, hi: Time, b: Time)
    requires Slotted(long) && Slotted(day) && Nests(long.grid, day.grid)
    requires long.grid.start(lo) == lo && long.grid.start(hi) == hi
    ensures LongView(long, day, Restrict(inp, lo, hi), ClipCoverage(cov, lo, hi), b)
         == if lo <= b < hi then LongView(long, day, inp, cov, b) else None
  {
    LongBarsLocal(long.grid, day, inp, cov, lo, hi, b);
    DaysStart(long.grid, DayKeys(day.grid, inp), b);
    var o := DayBars(day, inp, cov, DaysOf(long.grid, DayKeys(day.grid, inp), b));
    if lo <= b < hi && o != [] { GroupClip(long, b, o, cov, lo, hi); }
  }

  /** Rolling up only the candles and the clipped coverage of a bucket-aligned range gives, inside the
      range, exactly the candles of the full roll-up, and nothing outside it. */
  lemma ViewLocal(u: Unit, inp: Inputs, cov: set<Slice>, lo: Time, hi: Time, b: Time)
    requires GridOf(u).start(lo) == lo && GridOf(u).start(hi) == hi
    ensures ViewAt(u, Restrict(inp, lo, hi), ClipCoverage(cov, lo, hi), b)
         == if lo <= b < hi then ViewAt(u, inp, cov, b) else None
  {
    UnitSlotted(u);
    if DaySlots(u) {
      UnitSlotted(Day1);
      UnitNests(u);
      LongLocal(FrameOf(u), FrameOf(Day1), inp, cov, lo, hi, b);
    } else if u == Day1 {
      DayLocal(FrameOf(u), inp, cov, lo, hi, b);
    } else {
      ShortLocal(FrameOf(u), inp.minutes, cov, lo, hi, b);
    }
  }

  // ---------------------------------------------------------------- unchanged buckets

  /** Two sources have the same candles at instant `t`, in the same order there. */
  ghost predicate SameAt(a: Inputs, b: Inputs, t: Time) {
    && Filter(a.minutes, AtTime(t)) == Filter(b.minutes, AtTime(t))
    && Filter(a.dailies, ViewAtTime(t)) == Filter(b.dailies, ViewAtTime(t))
  }

  lemma BucketAt(g: Grid, minutes: seq<Bar>, b: Time, t: Time)
    ensures Filter(Filter(minutes, InBucket(g, b)), AtTime(t))
         == if g.start(t) == b then Filter(minutes, AtTime(t)) else []
  {
    if g.start(t) == b {
      FilterFilter(minutes, InBucket(g, b), AtTime(t));
    } else {
      FilterNone(Filter(minutes, InBucket(g, b)), AtTime(t));
    }
  }

  lemma GroupUnchanged(g: Grid, m1: seq<Bar>, m2: seq<Bar>, b: Time)
    requires forall t: Time :: g.start(t) == b ==> Filter(m1, AtTime(t)) == Filter(m2, AtTime(t))
    ensures Group(g, m1, b) == Group(g, m2, b)
  {
    forall t: Time
      ensures Filter(Filter(m1, InBucket(g, b)), AtTime(t)) == Filter(Filter(m2, InBucket(g, b)), AtTime(t))
    {
      BucketAt(g, m1, b, t);
      BucketAt(g, m2, b, t);
    }
    SortSame(Filter(m1, InBucket(g, b)), Filter(m2, InBucket(g, b)));
  }

  ghost predicate SameBucket(g: Grid, a: Inputs, b: Inputs, at: Time) {
    forall t: Time :: g.start(t) == g.start(at) ==> SameAt(a, b, t)
  }

  lemma ShortUnchanged(f: Frame, a: Inputs, b: Inputs, cov: set<Slice>, at: Time)
    requires Tiling(f.grid) && SameBucket(f.grid, a, b, at)
    ensures ShortView(f, a.minutes, cov, at) == ShortView(f, b.minutes, cov, at)
  {
    var g := f.grid;
    forall t: Time | g.start(t) == at ensures Filter(a.minutes, AtTime(t)) == Filter(b.minutes, AtTime(t)) {
      GridContains(g, t);
      assert SameAt(a, b, t);
    }
    GroupUnchanged(g, a.minutes, b.minutes, at);
  }

  lemma LastDailyUnchanged(a: Inputs, b: Inputs, d: Time)
    requires SameAt(a, b, d)
    ensures LastDaily(a.dailies, d) == LastDaily(b.dailies, d)
  {
    LastDailyIs(a.dailies, d);
    LastDailyIs(b.dailies, d);
  }

  lemma DayUnchanged(f: Frame, a: Inputs, b: Inputs, cov: set<Slice>, d: Time)
    requires Tiling(f.grid) && SameBucket(f.grid, a, b, d)
    ensures DayView(f, a, cov, d) == DayView(f, b, cov, d)
  {
    assert SameAt(a, b, d);
    LastDailyUnchanged(a, b, d);
    ShortUnchanged(f, a, b, cov, d);
  }

  lemma DayKeyUnchanged(long: Grid, day: Grid, a: Inputs, b: Inputs, at: Time, d: Time)
    requires Tiling(day) && Nests(long, day) && SameBucket(long, a, b, at) && long.start(d) == long.start(at)
    ensures d in DayKeys(day, a) ==> d in DayKeys(day, b)
  {
    if x :| x in a.minutes && day.start(x.at) == d {
      assert At(x.at) && SameAt(a, b, x.at);
      assert x in Filter(a.minutes, AtTime(x.at));
      assert x in Filter(b.minutes, AtTime(x.at));
    } else if v :| v in a.dailies && v.bar.at == d {
      assert SameAt(a, b, d);
      assert v in Filter(a.dailies, ViewAtTime(d));
      assert v in Filter(b.dailies, ViewAtTime(d));
    }
  }

  lemma SameBucketSym(g: Grid, a: Inputs, b: Inputs, at: Time)
    requires SameBucket(g, a, b, at)
    ensures SameBucket(g, b, a, at)
  {
    forall t: Time | g.start(t) == g.start(at) ensures SameAt(b, a, t) { assert SameAt(a, b, t); }
  }

  lemma DaysUnchanged(long: Grid, day: Grid, a: Inputs, b: Inputs, at: Time)
    requires Tiling(long) && Tiling(day) && Nests(long, day) && SameBucket(long, a, b, at)
    ensures DaysOf(long, DayKeys(day, a), at) == DaysOf(long, DayKeys(day, b), at)
  {
    var r, s := DaysOf(long, DayKeys(day, a), at), DaysOf(long, DayKeys(day, b), at);
    SameBucketSym(long, a, b, at);
    forall d: Time ensures d in r <==> d in s {
      if long.start(d) == at {
        GridContains(long, d);
        DayKeyUnchanged(long, day, a, b, at, d);
        DayKeyUnchanged(long, day, b, a, at, d);
      }
    }
    assert forall d: int :: d in r <==> d in s;
    IncreasingUnique(r, s);
  }

  lemma {:induction false} DayBarsUnchanged(long: Grid, f: Frame, a: Inputs, b: Inputs, cov: set<Slice>, at: Time,
                                            ds: seq<Time>)
    requires Tiling(f.grid) && Nests(long, f.grid) && SameBucket(long, a, b, at)
    requires forall i :: 0 <= i < |ds| ==> long.start(ds[i]) == long.start(at)
    ensures DayBars(f, a, cov, ds) == DayBars(f, b, cov, ds)
  {
    if ds != [] {
      var d := ds[0];
      assert At(d);
      forall t: Time | f.grid.start(t) == f.grid.start(d) ensures SameAt(a, b, t) {
        assert At(t);
        assert long.start(t) == long.start(at);
      }
      DayUnchanged(f, a, b, cov, d);
      DayBarsUnchanged(long, f, a, b, cov, at, ds[1..]);
    }
  }

  lemma LongUnchanged(long: Frame, day: Frame, a: Inputs, b: Inputs, cov: set<Slice>, at: Time)
    requires Tiling(long.grid) && Tiling(day.grid) && Nests(long.grid, day.grid) && SameBucket(long.grid, a, b, at)
    ensures LongView(long, day, a, cov, at) == LongView(long, day, b, cov, at)
  {
    DaysUnchanged(long.grid, day.grid, a, b, at);
    var ds := DaysOf(long.grid, DayKeys(day.grid, a), at);
    forall i | 0 <= i < |ds| ensures long.grid.start(ds[i]) == long.grid.start(at) {
      assert ds[i] in ds;
      GridContains(long.grid, ds[i]);
    }
    DayBarsUnchanged(long.grid, day, a, b, cov, at, ds);
  }

  /** A candle does not change when the source of its bucket does not. */
  lemma ViewUnchanged(u: Unit, a: Inputs, b: Inputs, cov: set<Slice>, at: Time)
    requires SameBucket(GridOf(u), a, b, at)
    ensures ViewAt(u, a, cov, at) == ViewAt(u, b, cov, at)
  {
    UnitGrid(u);
    if DaySlots(u) {
      UnitGrid(Day1);
      UnitNests(u);
      LongUnchanged(FrameOf(u), FrameOf(Day1), a, b, cov, at);
    } else if u == Day1 {
      DayUnchanged(FrameOf(u), a, b, cov, at);
    } else {
      ShortUnchanged(FrameOf(u), a, b, cov, at);
    }
  }
}
