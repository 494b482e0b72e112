/** How `aggregate_candles` builds its result - splitting the source, collecting it by bucket in a
    dictionary, walking the buckets in order - proved to list exactly the candles of `Rollup.Table`. */
module RollupBuild {
  import opened Ordering
  import opened Calendar
  import opened Coverage
  import opened Rollup

  // ---------------------------------------------------------------- splitting the source

  lemma {:induction false} SplitConcat(a: seq<SourceCandle>, b: seq<SourceCandle>)
    ensures Split(a + b) == Inputs(Split(a).minutes + Split(b).minutes, Split(a).dailies + Split(b).dailies)
  {
    if a == [] {
      assert a + b == b;
    } else {
      assert (a + b)[1..] == a[1..] + b;
      SplitConcat(a[1..], b);
    }
  }

  lemma SplitOne(c: SourceCandle)
    ensures Split([c]) == if c.daily then Inputs([], [SourceView(c)]) else Inputs([SourceBar(c)], [])
  {
    var s := [c];
    assert s[1..] == [];
  }

  function Extended(i: Inputs, c: SourceCandle): Inputs {
    if c.daily then Inputs(i.minutes, i.dailies + [SourceView(c)]) else Inputs(i.minutes + [SourceBar(c)], i.dailies)
  }

  lemma SplitSnoc(s: seq<SourceCandle>, k: nat)
    requires k < |s|
    ensures Split(s[..k + 1]) == Extended(Split(s[..k]), s[k])
  {
    assert s[..k + 1] == s[..k] + [s[k]];
    SplitConcat(s[..k], [s[k]]);
    SplitOne(s[k]);
  }

  method SplitSource(source: seq<SourceCandle>) returns (inp: Inputs)
    ensures inp == Split(source)
  {
    inp := Inputs([], []);
    var k := 0;
    while k < |source|
      invariant 0 <= k <= |source| && inp == Split(source[..k])
    {
      SplitSnoc(source, k);
      if source[k].daily {
        inp := Inputs(inp.minutes, inp.dailies + [SourceView(source[k])]);
      } else {
        inp := Inputs(inp.minutes + [SourceBar(source[k])], inp.dailies);
      }
      k := k + 1;
    }
    assert source[..k] == source;
  }

  // ---------------------------------------------------------------- grouping

  /** `grouped` holds, under each bucket that occurs, the items of that bucket in the order given. */
  ghost predicate GroupedBy(g: Grid, items: seq<Bar>, grouped: map<Time, seq<Bar>>) {
    && (forall x :: x in items ==> g.start(x.at) in grouped)
    && (forall b :: b in grouped ==> grouped[b] != [] && grouped[b] == Filter(items, InBucket(g, b)))
  }

  function ItemsAt(grouped: map<Time, seq<Bar>>, b: Time): seq<Bar> { if b in grouped then grouped[b] else [] }

  lemma GroupedStep(g: Grid, items: seq<Bar>, k: nat, grouped: map<Time, seq<Bar>>)
    requires k < |items| && GroupedBy(g, items[..k], grouped)
    ensures var b := g.start(items[k].at);
      GroupedBy(g, items[..k + 1], grouped[b := ItemsAt(grouped, b) + [items[k]]])
  {
    var bucket := g.start(items[k].at);
    var after := grouped[bucket := ItemsAt(grouped, bucket) + [items[k]]];
    assert items[..k + 1] == items[..k] + [items[k]];
    forall b | b in after ensures after[b] != [] && after[b] == Filter(items[..k + 1], InBucket(g, b)) {
      FilterSnoc(items, k, InBucket(g, b));
      if b == bucket && b !in grouped { FilterNone(items[..k], InBucket(g, b)); }
    }
  }

  method GroupByBucket(g: Grid, items: seq<Bar>) returns (grouped: map<Time, seq<Bar>>)
    ensures GroupedBy(g, items, grouped)
  {
    grouped := map[];
    var k := 0;
    while k < |items|
      invariant 0 <= k <= |items| && GroupedBy(g, items[..k], grouped)
    {
      var b := g.start(items[k].at);
      GroupedStep(g, items, k, grouped);
      grouped := grouped[b := ItemsAt(grouped, b) + [items[k]]];
      k := k + 1;
    }
    assert items[..k] == items;
  }

  // ---------------------------------------------------------------- one pass over the buckets

  method MissingSlotStatuses(b: Time, slot: nat, required: nat, items: seq<Bar>, cov: set<Slice>)
    returns (statuses: seq<Status>)
    ensures statuses == MissingSlots(b, slot, required, Times(items), cov)
  {
    var observed := Times(items);
    statuses := [];
    var offset := 0;
    while offset < required
      invariant 0 <= offset <= required && statuses == MissingSlots(b, slot, offset, observed, cov)
    {
      var from := b + slot * offset;
      if from !in observed {
        statuses := statuses + [SlotQuality(Covering(cov, from, from + slot))];
      }
      offset := offset + 1;
    }
  }

  /** The candle of bucket `b` from the items collected for it. */
  function Collected(f: Frame, b: Time, items: seq<Bar>, cov: set<Slice>): (v: View)
    requires items != []
    ensures v.bar.at == b
  {
    GroupView(b, StableSort(items, ByStart), f.slot, f.count(b), cov)
  }

  method Summarise(b: Time, o: seq<Bar>, slot: nat, required: nat, cov: set<Slice>) returns (v: View)
    requires o != []
    ensures v == GroupView(b, o, slot, required, cov)
  {
    var missing := MissingSlotStatuses(b, slot, required, o, cov);
    var complete := |o| == required || (|o| < required && missing != [] && forall q :: q in missing ==> q == NoTrade);
    v := View(Bar(b, o[0].open, High(o), Low(o), o[|o| - 1].close, Volume(o), Amount(o), LatestAsOf(o),
                  LatestKnowledge(o), Revisions(o), OfInputs(InputsOf(o))), complete, WorstQuality(missing), 0);
  }

  /** `result` is what each of the buckets `ks` gives, in order. */
  ghost predicate Built(f: Frame, grouped: map<Time, seq<Bar>>, cov: set<Slice>, ks: seq<Time>, result: seq<View>) {
    && |result| == |ks|
    && (forall i :: 0 <= i < |ks| ==>
        && ks[i] in grouped && grouped[ks[i]] != []
        && result[i] == Collected(f, ks[i], grouped[ks[i]], cov))
  }

  method AggregateGroups(f: Frame, grouped: map<Time, seq<Bar>>, cov: set<Slice>) returns (result: seq<View>)
    requires forall b :: b in grouped ==> grouped[b] != []
    ensures Built(f, grouped, cov, InOrder(grouped.Keys), result)
  {
    var ks := InOrder(grouped.Keys);
    assert forall i :: 0 <= i < |ks| ==> ks[i] in ks;
    result := [];
    for k := 0 to |ks|
      invariant |result| == k
      invariant forall i :: 0 <= i < k ==>
        ks[i] in grouped && grouped[ks[i]] != [] && result[i] == Collected(f, ks[i], grouped[ks[i]], cov)
    {
      var v := Summarise(ks[k], StableSort(grouped[ks[k]], ByStart), f.slot, f.count(ks[k]), cov);
      result := result + [v];
    }
  }

  // ---------------------------------------------------------------- listings

  /** `result` is the view at each of the keys `ks`, in order. */
  ghost predicate ListsAt(result: seq<View>, ks: seq<Time>, view: Time -> Option<View>) {
    |result| == |ks| && forall i :: 0 <= i < |ks| ==> view(ks[i]) == Some(result[i]) && result[i].bar.at == ks[i]
  }

  /** `result` lists the views of all of `keys` in order of start, each once. */
  ghost predicate Lists(result: seq<View>, keys: set<Time>, view: Time -> Option<View>) {
    ListsAt(result, InOrder(keys), view)
  }

  function ShortViews(f: Frame, minutes: seq<Bar>, cov: set<Slice>): Time -> Option<View> {
    (b: Time) => ShortView(f, minutes, cov, b)
  }

  function DayViews(f: Frame, inp: Inputs, cov: set<Slice>): Time -> Option<View> {
    (d: Time) => DayView(f, inp, cov, d)
  }

  function LongViews(long: Frame, day: Frame, inp: Inputs, cov: set<Slice>): Time -> Option<View> {
    (b: Time) => LongView(long, day, inp, cov, b)
  }

  function ShortKeys(g: Grid, minutes: seq<Bar>): set<Time> { set x | x in minutes :: g.start(x.at) }

  lemma GroupedKeys(g: Grid, items: seq<Bar>, grouped: map<Time, seq<Bar>>)
    requires GroupedBy(g, items, grouped)
    ensures grouped.Keys == ShortKeys(g, items)
  {
    forall b | b in grouped ensures b in ShortKeys(g, items) {
      assert grouped[b][0] in grouped[b];
      assert grouped[b][0] in Filter(items, InBucket(g, b));
    }
  }

  method AggregateShort(f: Frame, minutes: seq<Bar>, cov: set<Slice>) returns (result: seq<View>)
    ensures Lists(result, ShortKeys(f.grid, minutes), ShortViews(f, minutes, cov))
  {
    var grouped := GroupByBucket(f.grid, minutes);
    result := AggregateGroups(f, grouped, cov);
    ShortListed(f, minutes, cov, grouped, result);
  }

  lemma ShortCollected(f: Frame, minutes: seq<Bar>, cov: set<Slice>, b: Time, items: seq<Bar>)
    requires items == Filter(minutes, InBucket(f.grid, b)) && items != []
    ensures ShortViews(f, minutes, cov)(b) == Some(Collected(f, b, items, cov))
  {}

  lemma ShortListed(f: Frame, minutes: seq<Bar>, cov: set<Slice>, grouped: map<Time, seq<Bar>>, result: seq<View>)
    requires GroupedBy(f.grid, minutes, grouped) && Built(f, grouped, cov, InOrder(grouped.Keys), result)
    ensures Lists(result, ShortKeys(f.grid, minutes), ShortViews(f, minutes, cov))
  {
    GroupedKeys(f.grid, minutes, grouped);
    var ks := InOrder(grouped.Keys);
    forall i | 0 <= i < |ks|
      ensures ShortViews(f, minutes, cov)(ks[i]) == Some(result[i]) && result[i].bar.at == ks[i]
    {
      ShortCollected(f, minutes, cov, ks[i], grouped[ks[i]]);
    }
  }

  // ---------------------------------------------------------------- daily candles take precedence

  /** The views of a list by start, over those of an earlier map. */
  function Overlaid(base: Option<View>, views: seq<View>, d: Time): Option<View> {
    var last := LastDaily(views, d);
    if last.Some? then last else base
  }

  lemma LastDailySnoc(views: seq<View>, k: nat, d: Time)
    requires k < |views|
    ensures LastDaily(views[..k + 1], d) == if views[k].bar.at == d then Some(views[k]) else LastDaily(views[..k], d)
  {
    var s := views[..k + 1];
    assert s[..|s| - 1] == views[..k];
  }

  method Overlay(base: map<Time, View>, views: seq<View>) returns (m: map<Time, View>)
    ensures forall d :: Lookup(m, d) == Overlaid(Lookup(base, d), views, d)
  {
    m := base;
    var k := 0;
    while k < |views|
      invariant 0 <= k <= |views| && forall d :: Lookup(m, d) == Overlaid(Lookup(base, d), views[..k], d)
    {
      ghost var was := m;
      m := m[views[k].bar.at := views[k]];
      forall d ensures Lookup(m, d) == Overlaid(Lookup(base, d), views[..k + 1], d) {
        LastDailySnoc(views, k, d);
        assert Lookup(was, d) == Overlaid(Lookup(base, d), views[..k], d);
      }
      k := k + 1;
    }
    assert views[..k] == views;
  }

  /** A listing, looked up by start, gives back the views it lists. */
  lemma ListingLookup(result: seq<View>, keys: set<Time>, view: Time -> Option<View>, d: Time)
    requires Lists(result, keys, view)
    ensures LastDaily(result, d) == if d in keys then view(d) else None
  {
    var ks := InOrder(keys);
    assert forall i :: 0 <= i < |ks| ==> ks[i] in ks;
    LastDailyIn(result, d);
    if d in keys {
      assert d in ks;
      var i :| 0 <= i < |ks| && ks[i] == d;
      assert result[i] in result && result[i].bar.at == d;
      var j :| 0 <= j < |result| && result[j] == LastDaily(result, d).value;
      assert ks[j] == d;
    } else {
      assert forall v :: v in result ==> v.bar.at != d;
    }
  }

  lemma ShortOutside(f: Frame, minutes: seq<Bar>, cov: set<Slice>, b: Time)
    requires b !in ShortKeys(f.grid, minutes)
    ensures ShortView(f, minutes, cov, b) == None
  {
    FilterNone(minutes, InBucket(f.grid, b));
  }

  method InStartOrder(m: map<Time, View>) returns (result: seq<View>)
    requires forall d :: d in m ==> m[d].bar.at == d
    ensures Lists(result, m.Keys, (d: Time) => Lookup(m, d))
  {
    var ks := InOrder(m.Keys);
    assert forall i :: 0 <= i < |ks| ==> ks[i] in ks;
    result := [];
    for k := 0 to |ks|
      invariant |result| == k
      invariant forall i :: 0 <= i < k ==> ks[i] in m && result[i] == m[ks[i]]
    {
      result := result + [m[ks[k]]];
    }
  }

  /** What the overlay leaves at each day is the view of the day. */
  lemma OverlayIsDay(f: Frame, inp: Inputs, cov: set<Slice>, rolled: seq<View>, m: map<Time, View>, d: Time)
    requires Lists(rolled, ShortKeys(f.grid, inp.minutes), ShortViews(f, inp.minutes, cov))
    requires Lookup(m, d) == Overlaid(LastDaily(rolled, d), inp.dailies, d)
    ensures Lookup(m, d) == DayView(f, inp, cov, d)
    ensures d in m <==> d in DayKeys(f.grid, inp)
    ensures d in m ==> m[d].bar.at == d
  {
    ListingLookup(rolled, ShortKeys(f.grid, inp.minutes), ShortViews(f, inp.minutes, cov), d);
    LastDailyIn(inp.dailies, d);
    LastDailyIn(rolled, d);
    if d !in ShortKeys(f.grid, inp.minutes) { ShortOutside(f, inp.minutes, cov, d); }
    assert DayKeys(f.grid, inp) == ShortKeys(f.grid, inp.minutes) + set v | v in inp.dailies :: v.bar.at;
  }

  method AggregateDaily(f: Frame, inp: Inputs, cov: set<Slice>) returns (result: seq<View>)
    ensures Lists(result, DayKeys(f.grid, inp), DayViews(f, inp, cov))
  {
    var rolled := AggregateShort(f, inp.minutes, cov);
    var byStart := Overlay(map[], rolled);
    var all := Overlay(byStart, inp.dailies);
    forall d: Time ensures Lookup(all, d) == Overlaid(LastDaily(rolled, d), inp.dailies, d) {
      assert Lookup(byStart, d) == Overlaid(Lookup(map[], d), rolled, d);
    }
    OverlayIsDays(f, inp, cov, rolled, all);
    result := InStartOrder(all);
    ListsSame(result, all.Keys, (d: Time) => Lookup(all, d), DayViews(f, inp, cov));
  }

  lemma OverlayIsDays(f: Frame, inp: Inputs, cov: set<Slice>, rolled: seq<View>, m: map<Time, View>)
    requires Lists(rolled, ShortKeys(f.grid, inp.minutes), ShortViews(f, inp.minutes, cov))
    requires forall d: Time :: Lookup(m, d) == Overlaid(LastDaily(rolled, d), inp.dailies, d)
    ensures forall d: Time :: Lookup(m, d) == DayView(f, inp, cov, d)
    ensures m.Keys == DayKeys(f.grid, inp)
    ensures forall d :: d in m ==> m[d].bar.at == d
  {
    forall d: Time
      ensures Lookup(m, d) == DayView(f, inp, cov, d)
      ensures d in m <==> d in DayKeys(f.grid, inp)
      ensures d in m ==> m[d].bar.at == d
    {
      OverlayIsDay(f, inp, cov, rolled, m, d);
    }
  }

  // ---------------------------------------------------------------- weeks and months

  function BarsOf(views: seq<View>): (r: seq<Bar>)
    ensures |r| == |views| && forall i :: 0 <= i < |views| ==> r[i] == views[i].bar
  {
    seq(|views|, i requires 0 <= i < |views| => views[i].bar)
  }

  function StartsIn(long: Grid, b: Time): Time -> bool { (d: Time) => long.start(d) == b }

  ghost predicate HasDay(f: Frame, inp: Inputs, cov: set<Slice>, d: Time) {
    var v := DayView(f, inp, cov, d);
    v.Some? && v.value.bar.at == d
  }

  /** Collecting the days of a bucket from the list of all days gives the bars of the bucket's days. */
  lemma {:induction false} DaysCollected(long: Grid, f: Frame, inp: Inputs, cov: set<Slice>, ks: seq<Time>, b: Time)
    requires forall i :: 0 <= i < |ks| ==> HasDay(f, inp, cov, ks[i])
    ensures Filter(DayBars(f, inp, cov, ks), InBucket(long, b)) == DayBars(f, inp, cov, Filter(ks, StartsIn(long, b)))
    decreases |ks|
  {
    if ks != [] {
      DaysCollected(long, f, inp, cov, ks[1..], b);
      var first, rest := DayView(f, inp, cov, ks[0]).value.bar, DayBars(f, inp, cov, ks[1..]);
      assert HasDay(f, inp, cov, ks[0]);
      assert ks == [ks[0]] + ks[1..];
      DayBarsCons(f, inp, cov, ks[0], ks[1..]);
      FilterCons(ks, StartsIn(long, b));
      assert ([first] + rest)[1..] == rest;
      FilterCons([first] + rest, InBucket(long, b));
      DayBarsCons(f, inp, cov, ks[0], Filter(ks[1..], StartsIn(long, b)));
    }
  }

  lemma {:induction false} DaysListed(f: Frame, inp: Inputs, cov: set<Slice>, ks: seq<Time>, days: seq<View>)
    requires ListsAt(days, ks, DayViews(f, inp, cov))
    ensures BarsOf(days) == DayBars(f, inp, cov, ks)
    decreases |ks|
  {
    if ks != [] {
      DaysListed(f, inp, cov, ks[1..], days[1..]);
      DayListed(f, inp, cov, ks, days, 0);
      DayBarsCons(f, inp, cov, ks[0], ks[1..]);
      assert ks == [ks[0]] + ks[1..];
      BarsCons(days);
    }
  }

  lemma BarsCons(days: seq<View>)
    requires days != []
    ensures BarsOf(days) == [days[0].bar] + BarsOf(days[1..])
  {}

  lemma DayListed(f: Frame, inp: Inputs, cov: set<Slice>, ks: seq<Time>, days: seq<View>, i: nat)
    requires ListsAt(days, ks, DayViews(f, inp, cov)) && i < |ks|
    ensures DayView(f, inp, cov, ks[i]) == Some(days[i]) && HasDay(f, inp, cov, ks[i])
  {}

  lemma DayBarsCons(f: Frame, inp: Inputs, cov: set<Slice>, d: Time, ds: seq<Time>)
    requires DayView(f, inp, cov, d).Some?
    ensures DayBars(f, inp, cov, [d] + ds) == [DayView(f, inp, cov, d).value.bar] + DayBars(f, inp, cov, ds)
  {
    assert ([d] + ds)[1..] == ds;
  }

  lemma {:induction false} FilterIncreasing(s: seq<Time>, p: Time -> bool)
    requires Increasing(s)
    ensures Increasing(Filter(s, p))
  {
    if s != [] {
      FilterIncreasing(s[1..], p);
      var rest := Filter(s[1..], p);
      forall i | 0 <= i < |rest| ensures s[0] < rest[i] {
        assert rest[i] in rest;
        assert rest[i] in s[1..];
      }
    }
  }

  lemma DaysOfIsFilter(long: Grid, keys: set<Time>, b: Time)
    ensures Filter(InOrder(keys), StartsIn(long, b)) == DaysOf(long, keys, b)
  {
    FilterIncreasing(InOrder(keys), StartsIn(long, b));
    var x, y := Filter(InOrder(keys), StartsIn(long, b)), DaysOf(long, keys, b);
    assert forall d: Time :: d in x <==> d in y;
    TimesUnique(x, y);
  }

  lemma TimesUnique(a: seq<Time>, b: seq<Time>)
    requires Increasing(a) && Increasing(b) && forall t: Time :: t in a <==> t in b
    ensures a == b
  {
    forall x: int ensures x in a <==> x in b {
      if x in a { var i :| 0 <= i < |a| && a[i] == x; assert a[i] in b; }
      if x in b { var i :| 0 <= i < |b| && b[i] == x; assert b[i] in a; }
    }
    IncreasingUnique(a, b);
  }

  /** The items of a week or month, as the days come, are already in order. */
  lemma CollectedSorted(long: Grid, ks: seq<Time>, bars: seq<Bar>, b: Time)
    requires Increasing(ks) && |bars| == |ks| && forall i :: 0 <= i < |ks| ==> bars[i].at == ks[i]
    ensures StableSort(Filter(bars, InBucket(long, b)), ByStart) == Filter(bars, InBucket(long, b))
  {
    FilterSorted(bars, InBucket(long, b));
    StableSortId(Filter(bars, InBucket(long, b)), ByStart);
  }

  lemma {:induction false} FilterSorted(s: seq<Bar>, p: Bar -> bool)
    requires SortedBy(s, ByStart)
    ensures SortedBy(Filter(s, p), ByStart)
  {
    if s != [] {
      FilterSorted(s[1..], p);
      var rest := Filter(s[1..], p);
      forall i | 0 <= i < |rest| ensures ByStart(s[0], rest[i]) {
        assert rest[i] in rest;
        assert rest[i] in s[1..];
      }
    }
  }

  function LongKeys(long: Grid, day: Grid, inp: Inputs): set<Time> { set d | d in DayKeys(day, inp) :: long.start(d) }

  lemma LongGroup(long: Frame, day: Frame, inp: Inputs, cov: set<Slice>, days: seq<View>, b: Time)
    requires Lists(days, DayKeys(day.grid, inp), DayViews(day, inp, cov))
    ensures var o := Filter(BarsOf(days), InBucket(long.grid, b));
      LongView(long, day, inp, cov, b) == if o == [] then None else Some(Collected(long, b, o, cov))
  {
    var ks := InOrder(DayKeys(day.grid, inp));
    DaysListed(day, inp, cov, ks, days);
    forall i | 0 <= i < |ks| ensures HasDay(day, inp, cov, ks[i]) { DayListed(day, inp, cov, ks, days, i); }
    DaysCollected(long.grid, day, inp, cov, ks, b);
    DaysOfIsFilter(long.grid, DayKeys(day.grid, inp), b);
    CollectedSorted(long.grid, ks, BarsOf(days), b);
  }

  lemma LongKeysAre(long: Grid, keys: set<Time>, days: seq<View>, view: Time -> Option<View>)
    requires Lists(days, keys, view)
    ensures ShortKeys(long, BarsOf(days)) == set d | d in keys :: long.start(d)
  {
    var ks, bars := InOrder(keys), BarsOf(days);
    forall x | x in bars ensures x.at in keys {
      var i :| 0 <= i < |bars| && bars[i] == x;
      assert ks[i] in ks;
    }
    forall d | d in keys ensures long.start(d) in ShortKeys(long, bars) {
      assert d in ks;
      var i :| 0 <= i < |ks| && ks[i] == d;
      assert bars[i] in bars;
    }
  }

  method AggregateLong(long: Frame, day: Frame, inp: Inputs, cov: set<Slice>) returns (result: seq<View>)
    ensures Lists(result, LongKeys(long.grid, day.grid, inp), LongViews(long, day, inp, cov))
  {
    var days := AggregateDaily(day, inp, cov);
    var grouped := GroupByBucket(long.grid, BarsOf(days));
    GroupedKeys(long.grid, BarsOf(days), grouped);
    LongKeysAre(long.grid, DayKeys(day.grid, inp), days, DayViews(day, inp, cov));
    result := AggregateGroups(long, grouped, cov);
    var ks := InOrder(grouped.Keys);
    forall i | 0 <= i < |ks|
      ensures LongViews(long, day, inp, cov)(ks[i]) == Some(result[i]) && result[i].bar.at == ks[i]
    {
      LongGroup(long, day, inp, cov, days, ks[i]);
    }
  }

  // ---------------------------------------------------------------- the whole operation

  lemma ListsSame(result: seq<View>, keys: set<Time>, v: Time -> Option<View>, w: Time -> Option<View>)
    requires Lists(result, keys, v) && forall b :: v(b) == w(b)
    ensures Lists(result, keys, w)
  {}

  lemma LongUnit(u: Unit, inp: Inputs, cov: set<Slice>, result: seq<View>)
    requires DaySlots(u)
    requires Lists(result, LongKeys(GridOf(u), GridOf(Day1), inp), LongViews(FrameOf(u), FrameOf(Day1), inp, cov))
    ensures Lists(result, Keys(u, inp), ViewsOf(u, inp, cov))
  {
    assert Keys(u, inp) == LongKeys(GridOf(u), GridOf(Day1), inp);
    ListsSame(result, Keys(u, inp), LongViews(FrameOf(u), FrameOf(Day1), inp, cov), ViewsOf(u, inp, cov));
  }

  lemma ShortUnit(u: Unit, inp: Inputs, cov: set<Slice>, result: seq<View>)
    requires !DaySlots(u) && u != Day1
    requires Lists(result, ShortKeys(GridOf(u), inp.minutes), ShortViews(FrameOf(u), inp.minutes, cov))
    ensures Lists(result, Keys(u, inp), ViewsOf(u, inp, cov))
  {
    assert Keys(u, inp) == ShortKeys(GridOf(u), inp.minutes);
    ListsSame(result, Keys(u, inp), ShortViews(FrameOf(u), inp.minutes, cov), ViewsOf(u, inp, cov));
  }

  lemma DayUnit(inp: Inputs, cov: set<Slice>, result: seq<View>)
    requires Lists(result, DayKeys(GridOf(Day1), inp), DayViews(FrameOf(Day1), inp, cov))
    ensures Lists(result, Keys(Day1, inp), ViewsOf(Day1, inp, cov))
  {
    ListsSame(result, Keys(Day1, inp), DayViews(FrameOf(Day1), inp, cov), ViewsOf(Day1, inp, cov));
  }

  /** `aggregate_candles`: the list holds the candle of every bucket that has one, in order of start. */
  method AggregateCandles(u: Unit, source: seq<SourceCandle>, cov: set<Slice>) returns (result: seq<View>)
    ensures Lists(result, Keys(u, Split(source)), ViewsOf(u, Split(source), cov))
  {
    var inp := SplitSource(source);
    if DaySlots(u) {
      result := AggregateLong(FrameOf(u), FrameOf(Day1), inp, cov);
      LongUnit(u, inp, cov, result);
    } else if u == Day1 {
      result := AggregateDaily(FrameOf(u), inp, cov);
      DayUnit(inp, cov, result);
    } else {
      result := AggregateShort(FrameOf(u), inp.minutes, cov);
      ShortUnit(u, inp, cov, result);
    }
  }
}
