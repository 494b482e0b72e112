/** Laws of the roll-up over minute sources: building weeks and months through days equals building them
    from the minutes directly, and totals are conserved. */
module RollupTotals {
  import opened Ordering
  import opened Calendar
  import opened Coverage
  import opened Rollup
  import opened RollupLocality
  import opened Incremental
  import opened RollupBuild

  // ---------------------------------------------------------------- summaries

  /** What a candle says about the items it is made of. */
  datatype Summary = Summary(open: real, high: real, low: real, close: real, volume: real, amount: real,
                             asOf: Option<Time>, knowledge: Option<Time>, revisions: set<int>)

  function Summarize(s: seq<Bar>): Summary
    requires s != []
  {
    Summary(s[0].open, High(s), Low(s), s[|s| - 1].close, Volume(s), Amount(s), LatestAsOf(s), LatestKnowledge(s),
            Revisions(s))
  }

  function SummaryOf(b: Bar): Summary {
    Summary(b.open, b.high, b.low, b.close, b.volume, b.amount, b.asOf, b.knowledge, b.revisions)
  }

  /** `b` is made of the items `s`. */
  predicate Summarizes(b: Bar, s: seq<Bar>) { s != [] && SummaryOf(b) == Summarize(s) }

  /** The summary of items that follow one another. */
  function Join(x: Summary, y: Summary): Summary {
    Summary(x.open, if x.high < y.high then y.high else x.high, if y.low < x.low then y.low else x.low, y.close,
            x.volume + y.volume, x.amount + y.amount, Later(x.asOf, y.asOf), Later(x.knowledge, y.knowledge),
            x.revisions + y.revisions)
  }

  lemma SummarizeOne(b: Bar)
    ensures Summarize([b]) == SummaryOf(b)
  {
    var s := [b];
    assert s[1..] == [];
    assert Volume(s) == b.volume && Amount(s) == b.amount;
    assert LatestAsOf(s) == b.asOf && LatestKnowledge(s) == b.knowledge;
    assert Revisions(s) == b.revisions + {} == b.revisions;
  }

  lemma SummarizeCons(b: Bar, s: seq<Bar>)
    requires s != []
    ensures Summarize([b] + s) == Join(SummaryOf(b), Summarize(s))
  {
    assert ([b] + s)[1..] == s;
  }

  lemma JoinAssociative(x: Summary, y: Summary, z: Summary)
    ensures Join(Join(x, y), z) == Join(x, Join(y, z))
  {
    assert x.revisions + y.revisions + z.revisions == x.revisions + (y.revisions + z.revisions);
  }

  lemma {:induction false} SummarizeConcat(a: seq<Bar>, b: seq<Bar>)
    requires a != [] && b != []
    ensures Summarize(a + b) == Join(Summarize(a), Summarize(b))
  {
    if |a| == 1 {
      assert a == [a[0]];
      SummarizeOne(a[0]);
      SummarizeCons(a[0], b);
    } else {
      var t := a[1..];
      assert a == [a[0]] + t && a + b == [a[0]] + (t + b);
      SummarizeConcat(t, b);
      SummarizeCons(a[0], t);
      SummarizeCons(a[0], t + b);
      JoinAssociative(SummaryOf(a[0]), Summarize(t), Summarize(b));
    }
  }

  // ---------------------------------------------------------------- days in order are the minutes in order

  /** The minutes of the given days, day after day. */
  function DayMinutes(day: Grid, minutes: seq<Bar>, ds: seq<Time>): seq<Bar> {
    if ds == [] then [] else Group(day, minutes, ds[0]) + DayMinutes(day, minutes, ds[1..])
  }

  lemma GroupMembers(g: Grid, minutes: seq<Bar>, b: Time, x: Bar)
    ensures x in Group(g, minutes, b) <==> x in minutes && g.start(x.at) == b
  {
    StableSortMembers(Filter(minutes, InBucket(g, b)), ByStart);
  }

  lemma {:induction false} DayMinutesMembers(day: Grid, minutes: seq<Bar>, ds: seq<Time>, x: Bar)
    ensures x in DayMinutes(day, minutes, ds) <==> x in minutes && day.start(x.at) in ds
  {
    if ds != [] {
      GroupMembers(day, minutes, ds[0], x);
      DayMinutesMembers(day, minutes, ds[1..], x);
      assert ds == [ds[0]] + ds[1..];
    }
  }

  lemma GroupSorted(g: Grid, minutes: seq<Bar>, b: Time)
    ensures SortedBy(Group(g, minutes, b), ByStart)
  {
    ByStartTotal();
    StableSortSorted(Filter(minutes, InBucket(g, b)), ByStart);
  }

  lemma SortedConcat(a: seq<Bar>, b: seq<Bar>)
    requires SortedBy(a, ByStart) && SortedBy(b, ByStart)
    requires forall x, y :: x in a && y in b ==> x.at <= y.at
    ensures SortedBy(a + b, ByStart)
  {
    var s := a + b;
    forall i, j | 0 <= i < j < |s| ensures ByStart(s[i], s[j]) {
      if i < |a| <= j { assert s[i] in a && s[j] in b; }
    }
  }

  lemma {:induction false} DayMinutesSorted(day: Grid, minutes: seq<Bar>, ds: seq<Time>)
    requires Tiling(day) && Increasing(ds)
    ensures SortedBy(DayMinutes(day, minutes, ds), ByStart)
  {
    if ds != [] {
      var first, rest := Group(day, minutes, ds[0]), DayMinutes(day, minutes, ds[1..]);
      GroupSorted(day, minutes, ds[0]);
      DayMinutesSorted(day, minutes, ds[1..]);
      forall x, y | x in first && y in rest ensures x.at <= y.at {
        GroupMembers(day, minutes, ds[0], x);
        DayMinutesMembers(day, minutes, ds[1..], y);
        if y.at < x.at {
          GridMonotone(day, y.at, x.at);
        }
      }
      SortedConcat(first, rest);
    }
  }

  lemma GroupAt(g: Grid, minutes: seq<Bar>, b: Time, t: Time)
    ensures Filter(Group(g, minutes, b), AtTime(t)) == if g.start(t) == b then Filter(minutes, AtTime(t)) else []
  {
    SortAt(Filter(minutes, InBucket(g, b)), t);
    BucketAt(g, minutes, b, t);
  }

  lemma {:induction false} DayMinutesAt(day: Grid, minutes: seq<Bar>, ds: seq<Time>, t: Time)
    requires Increasing(ds)
    ensures Filter(DayMinutes(day, minutes, ds), AtTime(t))
         == if day.start(t) in ds then Filter(minutes, AtTime(t)) else []
  {
    if ds != [] {
      var first, rest := Group(day, minutes, ds[0]), DayMinutes(day, minutes, ds[1..]);
      FilterConcat(first, rest, AtTime(t));
      GroupAt(day, minutes, ds[0], t);
      DayMinutesAt(day, minutes, ds[1..], t);
      assert ds == [ds[0]] + ds[1..];
      assert ds[0] !in ds[1..];
    }
  }

  /** The minutes of the days of a long bucket, day after day, are the minutes of the bucket in order. */
  lemma DaysAreBucket(long: Grid, day: Grid, minutes: seq<Bar>, b: Time)
    requires Tiling(day) && Nests(long, day)
    ensures DayMinutes(day, minutes, DaysOf(long, DayKeys(day, Inputs(minutes, [])), b)) == Group(long, minutes, b)
  {
    var keys := DayKeys(day, Inputs(minutes, []));
    var ds := DaysOf(long, keys, b);
    var x, y := DayMinutes(day, minutes, ds), Group(long, minutes, b);
    DayMinutesSorted(day, minutes, ds);
    GroupSorted(long, minutes, b);
    forall t: Time ensures Filter(x, AtTime(t)) == Filter(y, AtTime(t)) {
      DayMinutesAt(day, minutes, ds, t);
      GroupAt(long, minutes, b, t);
      assert At(t);
      if long.start(t) == b && day.start(t) !in keys {
        forall m | m in minutes ensures !AtTime(t)(m) { assert day.start(m.at) in keys; }
        FilterNone(minutes, AtTime(t));
      }
    }
    SortedCanonical(x, y);
  }

  // ---------------------------------------------------------------- hierarchical equals direct

  lemma DayBarSummary(f: Frame, minutes: seq<Bar>, cov: set<Slice>, d: Time)
    requires d in DayKeys(f.grid, Inputs(minutes, []))
    ensures Group(f.grid, minutes, d) != []
    ensures DayView(f, Inputs(minutes, []), cov, d).Some?
    ensures SummaryOf(DayView(f, Inputs(minutes, []), cov, d).value.bar) == Summarize(Group(f.grid, minutes, d))
  {
    var x :| x in minutes && f.grid.start(x.at) == d;
    GroupMembers(f.grid, minutes, d, x);
  }

  lemma SummarizeStep(bars: seq<Bar>, first: seq<Bar>, rest: seq<Bar>)
    requires |bars| > 1 && Summarizes(bars[0], first)
    requires rest != [] && Summarize(bars[1..]) == Summarize(rest)
    ensures Summarize(bars) == Summarize(first + rest)
  {
    SummarizeConcat(first, rest);
    SummarizeCons(bars[0], bars[1..]);
    assert bars == [bars[0]] + bars[1..];
  }

  /** Bars that each summarise one bucket summarise the buckets' minutes together. */
  lemma {:induction false} BarsSummary(g: Grid, minutes: seq<Bar>, ks: seq<Time>, bars: seq<Bar>)
    requires |bars| == |ks| > 0
    requires forall i :: 0 <= i < |ks| ==> Summarizes(bars[i], Group(g, minutes, ks[i]))
    ensures DayMinutes(g, minutes, ks) != []
    ensures Summarize(bars) == Summarize(DayMinutes(g, minutes, ks))
  {
    var first, rest := Group(g, minutes, ks[0]), DayMinutes(g, minutes, ks[1..]);
    assert Summarizes(bars[0], first);
    assert DayMinutes(g, minutes, ks) == first + rest;
    if |ks| == 1 {
      assert rest == [] && first + rest == first && bars == [bars[0]];
      SummarizeOne(bars[0]);
    } else {
      BarsSummary(g, minutes, ks[1..], bars[1..]);
      SummarizeStep(bars, first, rest);
    }
  }

  lemma {:induction false} DayBarsEach(f: Frame, minutes: seq<Bar>, cov: set<Slice>, ds: seq<Time>)
    requires forall i :: 0 <= i < |ds| ==> ds[i] in DayKeys(f.grid, Inputs(minutes, []))
    ensures var bars := DayBars(f, Inputs(minutes, []), cov, ds);
      |bars| == |ds| && forall i :: 0 <= i < |ds| ==> Summarizes(bars[i], Group(f.grid, minutes, ds[i]))
  {
    if ds != [] {
      DayBarSummary(f, minutes, cov, ds[0]);
      DayBarsEach(f, minutes, cov, ds[1..]);
    }
  }

  lemma DaysSummarize(long: Grid, f: Frame, minutes: seq<Bar>, cov: set<Slice>, b: Time)
    requires Tiling(f.grid) && Nests(long, f.grid)
    ensures var o := DayBars(f, Inputs(minutes, []), cov, DaysOf(long, DayKeys(f.grid, Inputs(minutes, [])), b));
      var direct := Group(long, minutes, b);
      if o == [] then direct == [] else direct != [] && Summarize(o) == Summarize(direct)
  {
    var inp := Inputs(minutes, []);
    var ds := DaysOf(long, DayKeys(f.grid, inp), b);
    DaysAreBucket(long, f.grid, minutes, b);
    if ds != [] {
      assert forall i :: 0 <= i < |ds| ==> ds[i] in ds;
      DayBarsEach(f, minutes, cov, ds);
      BarsSummary(f.grid, minutes, ds, DayBars(f, inp, cov, ds));
    }
  }

  lemma LongIsDirect(long: Frame, day: Frame, minutes: seq<Bar>, cov: set<Slice>, b: Time)
    requires Tiling(day.grid) && Nests(long.grid, day.grid)
    ensures var v := LongView(long, day, Inputs(minutes, []), cov, b); var direct := Group(long.grid, minutes, b);
      && (v.Some? <==> direct != [])
      && (v.Some? ==> v.value.bar.at == b && SummaryOf(v.value.bar) == Summarize(direct))
  {
    DaysSummarize(long.grid, day, minutes, cov, b);
  }

  /** Hierarchical roll-up equals direct roll-up: from minute sources alone, the week or month built
      through its days has the open, high, low, close, volume, amount, source and knowledge time and
      revisions of its minutes taken directly in order. */
  lemma HierarchicalIsDirect(u: Unit, minutes: seq<Bar>, cov: set<Slice>, b: Time)
    requires DaySlots(u)
    ensures var v := ViewAt(u, Inputs(minutes, []), cov, b); var direct := Group(GridOf(u), minutes, b);
      && (v.Some? <==> direct != [])
      && (v.Some? ==> v.value.bar.at == b && SummaryOf(v.value.bar) == Summarize(direct))
  {
    UnitGrid(Day1);
    UnitNests(u);
    LongIsDirect(FrameOf(u), FrameOf(Day1), minutes, cov, b);
  }

  // ---------------------------------------------------------------- totals are conserved

  /** From minute sources, every candle of every unit is made of the minutes of its bucket in order. */
  lemma ViewSummarizes(u: Unit, minutes: seq<Bar>, cov: set<Slice>, b: Time)
    ensures var v := ViewAt(u, Inputs(minutes, []), cov, b); var direct := Group(GridOf(u), minutes, b);
      && (v.Some? <==> direct != [])
      && (v.Some? ==> v.value.bar.at == b && Summarizes(v.value.bar, direct))
  {
    if DaySlots(u) { HierarchicalIsDirect(u, minutes, cov, b); }
  }

  lemma TableKeys(u: Unit, minutes: seq<Bar>, cov: set<Slice>, x: Bar)
    requires x in minutes
    ensures GridOf(u).start(x.at) in Table(u, Inputs(minutes, []), cov)
  {
    var b := GridOf(u).start(x.at);
    GroupMembers(GridOf(u), minutes, b, x);
    ViewSummarizes(u, minutes, cov, b);
    assert b in Keys(u, Inputs(minutes, [])) by {
      if DaySlots(u) {
        UnitNests(u);
        assert At(x.at);
        assert GridOf(Day1).start(x.at) in DayKeys(GridOf(Day1), Inputs(minutes, []));
      }
    }
  }

  /** The buckets that hold all the minutes, one after the other, are the minutes in order. */
  lemma BucketsAreAll(g: Grid, minutes: seq<Bar>, ks: seq<Time>)
    requires Tiling(g) && Increasing(ks) && forall x :: x in minutes ==> g.start(x.at) in ks
    ensures DayMinutes(g, minutes, ks) == StableSort(minutes, ByStart)
  {
    var x, y := DayMinutes(g, minutes, ks), StableSort(minutes, ByStart);
    DayMinutesSorted(g, minutes, ks);
    ByStartTotal();
    StableSortSorted(minutes, ByStart);
    forall t: Time ensures Filter(x, AtTime(t)) == Filter(y, AtTime(t)) {
      DayMinutesAt(g, minutes, ks, t);
      SortAt(minutes, t);
      if g.start(t) !in ks { FilterNone(minutes, AtTime(t)); }
    }
    SortedCanonical(x, y);
  }

  lemma {:induction false} InsertTotals(x: Bar, s: seq<Bar>)
    ensures Volume(Insert(x, s, ByStart)) == x.volume + Volume(s)
    ensures Amount(Insert(x, s, ByStart)) == x.amount + Amount(s)
  {
    if s != [] && !ByStart(x, s[0]) { InsertTotals(x, s[1..]); }
  }

  lemma {:induction false} SortTotals(s: seq<Bar>)
    ensures Volume(StableSort(s, ByStart)) == Volume(s) && Amount(StableSort(s, ByStart)) == Amount(s)
  {
    if s != [] {
      SortTotals(s[1..]);
      InsertTotals(s[0], StableSort(s[1..], ByStart));
    }
  }

  function BarsAt(table: map<Time, View>, ks: seq<Time>): (r: seq<Bar>)
    requires forall k :: k in ks ==> k in table
    ensures |r| == |ks| && forall i :: 0 <= i < |ks| ==> ks[i] in table && r[i] == table[ks[i]].bar
  {
    if ks == [] then [] else BarsAt(table, ks[..|ks| - 1]) + [table[ks[|ks| - 1]].bar]
  }

  /** Candles in order of start. */
  function TableBars(table: map<Time, View>): seq<Bar> { BarsAt(table, InOrder(table.Keys)) }

  function Candles(u: Unit, inp: Inputs, cov: set<Slice>): seq<Bar> { TableBars(Table(u, inp, cov)) }

  lemma AllListed(result: seq<View>, keys: set<Time>, view: Time -> Option<View>)
    requires Lists(result, keys, view)
    ensures forall b :: b in keys ==> view(b).Some?
  {
    var ks := InOrder(keys);
    forall b | b in keys ensures view(b).Some? {
      assert b in ks;
      var i :| 0 <= i < |ks| && ks[i] == b;
    }
  }

  /** What `AggregateCandles` returns is the candles in order of start. */
  lemma ListingIsCandles(u: Unit, inp: Inputs, cov: set<Slice>, result: seq<View>)
    requires Lists(result, Keys(u, inp), ViewsOf(u, inp, cov))
    ensures BarsOf(result) == Candles(u, inp, cov)
  {
    ListingIsTable(result, Keys(u, inp), ViewsOf(u, inp, cov));
  }

  lemma ListingIsTable(result: seq<View>, keys: set<Time>, view: Time -> Option<View>)
    requires Lists(result, keys, view)
    ensures BarsOf(result) == TableBars(Tabulated(keys, view))
  {
    AllListed(result, keys, view);
    assert Tabulated(keys, view).Keys == keys;
    BarsListed(result, InOrder(keys), view, Tabulated(keys, view));
  }

  lemma BarsListed(result: seq<View>, ks: seq<Time>, view: Time -> Option<View>, table: map<Time, View>)
    requires ListsAt(result, ks, view)
    requires forall b :: b in ks ==> b in table && view(b) == Some(table[b])
    ensures BarsOf(result) == BarsAt(table, ks)
  {
    assert forall i :: 0 <= i < |ks| ==> ks[i] in ks;
  }

  /** Conservation: for every unit, the candles together say of the market exactly what the minutes
      together say - same first open, extremes, last close, source and knowledge times and revisions -
      and their volumes and amounts add up to those of the minutes as they were given. */
  lemma TotalsConserved(u: Unit, minutes: seq<Bar>, cov: set<Slice>)
    requires minutes != []
    ensures var all := Candles(u, Inputs(minutes, []), cov);
      && all != [] && Summarize(all) == Summarize(StableSort(minutes, ByStart))
      && Volume(all) == Volume(minutes) && Amount(all) == Amount(minutes)
  {
    var inp, g := Inputs(minutes, []), GridOf(u);
    var ks, all := InOrder(Table(u, inp, cov).Keys), Candles(u, inp, cov);
    UnitGrid(u);
    forall x | x in minutes ensures g.start(x.at) in ks { TableKeys(u, minutes, cov, x); }
    BucketsAreAll(g, minutes, ks);
    assert minutes[0] in minutes;
    forall i | 0 <= i < |ks| ensures Summarizes(all[i], Group(g, minutes, ks[i])) {
      assert ks[i] in ks;
      ViewSummarizes(u, minutes, cov, ks[i]);
    }
    BarsSummary(g, minutes, ks, all);
    SortTotals(minutes);
  }
}
