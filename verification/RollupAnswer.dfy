/** The list that `aggregate_candles` returns, in terms of the source candles, the coverage slices and the days. */
module RollupAnswer {
  import opened Ordering
  import opened Calendar
  import opened Coverage
  import opened Rollup
  import opened RollupBuild
  import opened RollupLocality
  import opened RollupTotals
  import opened RollupMeaning
  import opened RollupSlots

  // ---------------------------------------------------------------- the digest of the inputs

  function Fields(c: SourceCandle): HashInput {
    HashInput(c.start, c.open, c.high, c.low, c.close, c.volume, c.amount, c.hash)
  }

  function Taken(source: seq<SourceCandle>, inside: SourceCandle -> bool): seq<HashInput> {
    if source == [] then [] else
      (if inside(source[0]) then [Fields(source[0])] else []) + Taken(source[1..], inside)
  }

  function InputAt(t: Time): HashInput -> bool { (x: HashInput) => x.at == t }

  /** The hash digests `inputs` in order of start, and those of one instant in the order given. */
  ghost predicate Digests(h: Hash, inputs: seq<HashInput>) {
    && h.OfInputs?
    && (forall i, j :: 0 <= i < j < |h.inputs| ==> h.inputs[i].at <= h.inputs[j].at)
    && forall t: Time :: Filter(h.inputs, InputAt(t)) == Filter(inputs, InputAt(t))
  }

  lemma {:induction false} InputsAre(s: seq<Bar>)
    ensures |InputsOf(s)| == |s| && forall i :: 0 <= i < |s| ==> InputsOf(s)[i] == InputOf(s[i])
  {
    if s != [] { InputsAre(s[1..]); }
  }

  lemma {:induction false} InputsFiltered(s: seq<Bar>, t: Time)
    ensures Filter(InputsOf(s), InputAt(t)) == InputsOf(Filter(s, AtTime(t)))
  {
    if s != [] {
      InputsFiltered(s[1..], t);
      assert InputsOf(s)[1..] == InputsOf(s[1..]);
      FilterCons(InputsOf(s), InputAt(t));
      FilterCons(s, AtTime(t));
      InputsCons(s[0], Filter(s[1..], AtTime(t)));
    }
  }

  lemma InputsCons(x: Bar, s: seq<Bar>)
    ensures InputsOf([x] + s) == [InputOf(x)] + InputsOf(s)
  {
    assert ([x] + s)[1..] == s;
  }

  /** Sorted bars digest the inputs they were sorted from. */
  lemma SortDigests(s: seq<Bar>)
    ensures Digests(OfInputs(InputsOf(StableSort(s, ByStart))), InputsOf(s))
  {
    var o := StableSort(s, ByStart);
    ByStartTotal();
    StableSortSorted(s, ByStart);
    InputsAre(o);
    forall i, j | 0 <= i < j < |InputsOf(o)| ensures InputsOf(o)[i].at <= InputsOf(o)[j].at {
      assert ByStart(o[i], o[j]);
    }
    forall t: Time ensures Filter(InputsOf(o), InputAt(t)) == Filter(InputsOf(s), InputAt(t)) {
      InputsFiltered(o, t);
      InputsFiltered(s, t);
      SortAt(s, t);
    }
  }

  lemma {:induction false} TakenIs(source: seq<SourceCandle>, g: Grid, b: Time)
    ensures InputsOf(Filter(Split(source).minutes, InBucket(g, b))) == Taken(source, MinuteIn(g, b))
  {
    if source != [] {
      TakenIs(source[1..], g, b);
      var rest := Split(source[1..]).minutes;
      if !source[0].daily {
        assert ([SourceBar(source[0])] + rest)[1..] == rest;
        FilterCons([SourceBar(source[0])] + rest, InBucket(g, b));
        InputsCons(SourceBar(source[0]), Filter(rest, InBucket(g, b)));
      }
    }
  }

  // ---------------------------------------------------------------- a candle rolled up from minutes

  ghost function StartsOf(source: seq<SourceCandle>, inside: SourceCandle -> bool): Time -> bool {
    (t: Time) => exists c :: c in source && inside(c) && c.start == t
  }

  function CountOf(source: seq<SourceCandle>, inside: SourceCandle -> bool): nat {
    if source == [] then 0 else (if inside(source[0]) then 1 else 0) + CountOf(source[1..], inside)
  }

  /** `v` is rolled up from the minute candles of its bucket, judged by `count` slots of a minute. */
  ghost predicate FromMinutes(v: View, source: seq<SourceCandle>, g: Grid, count: nat, cov: set<Slice>) {
    var inside := MinuteIn(g, v.bar.at);
    && Reports(v.bar, source, inside)
    && Judged(v, Slots(v.bar.at, MINUTE, count), StartsOf(source, inside), CountOf(source, inside), cov)
    && Digests(v.bar.hash, Taken(source, inside))
    && v.through == 0
  }

  lemma {:induction false} CountIs(source: seq<SourceCandle>, g: Grid, b: Time)
    ensures |Filter(Split(source).minutes, InBucket(g, b))| == CountOf(source, MinuteIn(g, b))
  {
    if source != [] {
      CountIs(source[1..], g, b);
      var rest := Split(source[1..]).minutes;
      if !source[0].daily {
        assert ([SourceBar(source[0])] + rest)[1..] == rest;
        FilterCons([SourceBar(source[0])] + rest, InBucket(g, b));
      }
    }
  }

  lemma SeenIs(source: seq<SourceCandle>, g: Grid, b: Time, t: Time)
    ensures t in Times(Group(g, Split(source).minutes, b)) <==> StartsOf(source, MinuteIn(g, b))(t)
  {
    var o := Group(g, Split(source).minutes, b);
    if t in Times(o) {
      var x :| x in o && x.at == t;
      var c := FromGroup(source, g, b, x);
    }
    if c :| c in source && MinuteIn(g, b)(c) && c.start == t {
      InGroup(source, g, b, c);
    }
  }

  lemma UnseenSame(s: Slots, x: Time -> bool, y: Time -> bool)
    requires forall t: Time :: x(t) == y(t)
    ensures forall k: nat :: Unseen(s, x, k) == Unseen(s, y, k)
  {}

  lemma SomeSame(s: Slots, x: Time -> bool, y: Time -> bool, cov: set<Slice>, q: Status)
    requires forall k: nat :: Unseen(s, x, k) == Unseen(s, y, k)
    ensures SomeReads(s, x, cov, q) == SomeReads(s, y, cov, q) && AllRead(s, x, cov, q) == AllRead(s, y, cov, q)
  {}

  lemma JudgedSame(v: View, s: Slots, x: Time -> bool, y: Time -> bool, size: nat, cov: set<Slice>)
    requires Judged(v, s, x, size, cov) && forall t: Time :: x(t) == y(t)
    ensures Judged(v, s, y, size, cov)
  {
    UnseenSame(s, x, y);
    SomeSame(s, x, y, cov, Missing);
    SomeSame(s, x, y, cov, Unavailable);
    SomeSame(s, x, y, cov, Unverified);
    SomeSame(s, x, y, cov, Available);
    SomeSame(s, x, y, cov, NoTrade);
  }

  lemma ShortJudged(v: View, f: Frame, source: seq<SourceCandle>, cov: set<Slice>, b: Time)
    requires ShortView(f, Split(source).minutes, cov, b) == Some(v)
    ensures Judged(v, Slots(b, f.slot, f.count(b)), StartsOf(source, MinuteIn(f.grid, b)),
                   CountOf(source, MinuteIn(f.grid, b)), cov)
  {
    var o := Group(f.grid, Split(source).minutes, b);
    CountIs(source, f.grid, b);
    GroupJudged(b, o, f.slot, f.count(b), cov);
    forall t: Time ensures Observed(Times(o))(t) == StartsOf(source, MinuteIn(f.grid, b))(t) {
      SeenIs(source, f.grid, b, t);
    }
    JudgedSame(v, Slots(b, f.slot, f.count(b)), Observed(Times(o)), StartsOf(source, MinuteIn(f.grid, b)), |o|, cov);
  }

  lemma ShortMeans(v: View, f: Frame, source: seq<SourceCandle>, cov: set<Slice>, b: Time)
    requires ShortView(f, Split(source).minutes, cov, b) == Some(v) && f.slot == MINUTE
    ensures v.bar.at == b && FromMinutes(v, source, f.grid, f.count(b), cov)
  {
    var minutes := Split(source).minutes;
    ShortJudged(v, f, source, cov, b);
    SummaryReports(v.bar, source, f.grid, b);
    TakenIs(source, f.grid, b);
    SortDigests(Filter(minutes, InBucket(f.grid, b)));
  }

  // ---------------------------------------------------------------- a day with a daily source candle

  /** `source[i]` is the last daily candle that starts at `d`. */
  predicate LastAt(source: seq<SourceCandle>, i: nat, d: Time) {
    && i < |source| && source[i].daily && source[i].start == d
    && forall j :: i < j < |source| && source[j].daily ==> source[j].start != d
  }

  /** `v` carries the fields of the daily candle `c`. */
  ghost predicate Carries(v: View, c: SourceCandle) {
    && v.bar.open == c.open && v.bar.high == c.high && v.bar.low == c.low && v.bar.close == c.close
    && v.bar.volume == c.volume && v.bar.amount == c.amount
    && v.bar.asOf == Some(c.collectedAt) && v.bar.knowledge == Some(KnownAt(c))
    && (forall r :: r in v.bar.revisions <==> c.revision == Some(r))
    && v.bar.hash == (if c.hash == Absent then OfInputs([Fields(c)]) else c.hash)
    && v.complete && v.quality == Available
    && v.through == match c.revision { case Some(r) => r case None => 0 }
  }

  lemma {:induction false} LastOfPrefix(source: seq<SourceCandle>, k: nat, d: Time) returns (i: nat)
    requires k <= |source| && LastDaily(Split(source[..k]).dailies, d).Some?
    ensures i < k && source[i].daily && source[i].start == d
    ensures forall j :: i < j < k && source[j].daily ==> source[j].start != d
    ensures LastDaily(Split(source[..k]).dailies, d) == Some(SourceView(source[i]))
  {
    if k == 0 {
      assert false;
    } else {
      SplitSnoc(source, k - 1);
      var was := Split(source[..k - 1]).dailies;
      if source[k - 1].daily {
        assert (was + [SourceView(source[k - 1])])[..|was|] == was;
      }
      if source[k - 1].daily && source[k - 1].start == d {
        i := k - 1;
      } else {
        i := LastOfPrefix(source, k - 1, d);
      }
    }
  }

  /** A day is the last daily source candle that starts on it, and without one it is rolled up from its minutes. */
  lemma DayMeans(v: View, f: Frame, source: seq<SourceCandle>, cov: set<Slice>, d: Time)
    requires DayView(f, Split(source), cov, d) == Some(v) && f.slot == MINUTE
    ensures v.bar.at == d
    ensures if exists c :: c in source && c.daily && c.start == d
      then exists i: nat :: LastAt(source, i, d) && Carries(v, source[i])
      else FromMinutes(v, source, f.grid, f.count(d), cov)
  {
    var dailies := Split(source).dailies;
    assert source[..|source|] == source;
    if LastDaily(dailies, d).Some? {
      var i := LastOfPrefix(source, |source|, d);
      assert source[i] in source;
      assert LastAt(source, i, d) && Carries(v, source[i]);
    } else {
      if c :| c in source && c.daily && c.start == d {
        SplitHas(source, c);
        LastDailyIn(dailies, d);
      }
      ShortMeans(v, f, source, cov, d);
    }
  }

  // ---------------------------------------------------------------- weeks and months

  /** `v` is rolled up from the days of its bucket, judged by `count` slots of a day. */
  ghost predicate FromDays(v: View, days: seq<View>, g: Grid, count: nat, cov: set<Slice>) {
    var items := Filter(BarsOf(days), InBucket(g, v.bar.at));
    && Combines(v.bar, items)
    && Judged(v, Slots(v.bar.at, DAY, count), Observed(set x | x in items :: x.at), |items|, cov)
    && v.bar.hash.OfInputs? && |v.bar.hash.inputs| == |items|
    && (forall i :: 0 <= i < |items| ==>
         v.bar.hash.inputs[i] == HashInput(items[i].at, items[i].open, items[i].high, items[i].low, items[i].close,
                                           items[i].volume, items[i].amount, items[i].hash))
    && v.through == 0
  }

  lemma ListedSorted(days: seq<View>, keys: set<Time>, view: Time -> Option<View>, g: Grid, b: Time)
    requires Lists(days, keys, view)
    ensures var o := Filter(BarsOf(days), InBucket(g, b)); SortedBy(o, ByStart) && StableSort(o, ByStart) == o
  {
    var o := Filter(BarsOf(days), InBucket(g, b));
    FilterSorted(BarsOf(days), InBucket(g, b));
    StableSortId(o, ByStart);
  }

  lemma GroupSummarized(b: Time, o: seq<Bar>, slot: nat, n: nat, cov: set<Slice>)
    requires o != []
    ensures var v := GroupView(b, o, slot, n, cov);
      Summarizes(v.bar, o) && v.bar.at == b && v.bar.hash == OfInputs(InputsOf(o)) && v.through == 0
  {}

  lemma InputsFields(o: seq<Bar>)
    ensures |InputsOf(o)| == |o|
    ensures forall i :: 0 <= i < |o| ==>
      InputsOf(o)[i] == HashInput(o[i].at, o[i].open, o[i].high, o[i].low, o[i].close, o[i].volume, o[i].amount,
                                  o[i].hash)
  {
    InputsAre(o);
  }

  lemma CollectedMeans(v: View, days: seq<View>, g: Grid, count: nat, cov: set<Slice>, b: Time, o: seq<Bar>)
    requires o == Filter(BarsOf(days), InBucket(g, b)) && o != [] && SortedBy(o, ByStart)
    requires v == GroupView(b, o, DAY, count, cov)
    ensures v.bar.at == b && FromDays(v, days, g, count, cov)
  {
    GroupSummarized(b, o, DAY, count, cov);
    GroupJudged(b, o, DAY, count, cov);
    SummaryCombines(v.bar, o);
    InputsFields(o);
  }

  /** A week or month is rolled up from the listed days that start in it. */
  lemma DaysMean(v: View, long: Frame, day: Frame, source: seq<SourceCandle>, cov: set<Slice>, days: seq<View>, b: Time)
    requires LongView(long, day, Split(source), cov, b) == Some(v) && long.slot == DAY
    requires Lists(days, DayKeys(day.grid, Split(source)), DayViews(day, Split(source), cov))
    ensures v.bar.at == b && FromDays(v, days, long.grid, long.count(b), cov)
  {
    var o := Filter(BarsOf(days), InBucket(long.grid, b));
    LongGroup(long, day, Split(source), cov, days, b);
    ListedSorted(days, DayKeys(day.grid, Split(source)), DayViews(day, Split(source), cov), long.grid, b);
    CollectedMeans(v, days, long.grid, long.count(b), cov, b, o);
  }

  // ---------------------------------------------------------------- the list

  /** `b` is the start of the candle of unit `u` that the source candle `c` goes into. */
  predicate GoesInto(u: Unit, c: SourceCandle, b: Time) {
    if !c.daily || DaySlots(u) then b == BucketStart(u, c.start) else u == Day1 && b == c.start
  }

  ghost predicate Minutely(source: seq<SourceCandle>) { forall c :: c in source ==> !c.daily }

  /** What one candle of unit `u` says; `days` are the candles of the days. */
  ghost predicate Says(u: Unit, v: View, source: seq<SourceCandle>, cov: set<Slice>, days: seq<View>) {
    && (!DaySlots(u) ==>
         if u == Day1 && exists c :: c in source && c.daily && c.start == v.bar.at
         then exists i: nat :: LastAt(source, i, v.bar.at) && Carries(v, source[i])
         else FromMinutes(v, source, GridOf(u), SlotCount(u, v.bar.at), cov))
    && (DaySlots(u) ==> FromDays(v, days, GridOf(u), SlotCount(u, v.bar.at), cov))
    && (Minutely(source) ==> Reports(v.bar, source, MinuteIn(GridOf(u), v.bar.at)))
  }

  lemma MinutelySplit(source: seq<SourceCandle>)
    requires Minutely(source)
    ensures Split(source) == Inputs(Split(source).minutes, [])
    decreases |source|
  {
    if source != [] {
      assert source[0] in source;
      MinutelySplit(source[1..]);
    }
  }

  lemma MinutelyReports(u: Unit, v: View, source: seq<SourceCandle>, cov: set<Slice>, b: Time)
    requires Minutely(source) && ViewAt(u, Split(source), cov, b) == Some(v)
    ensures Reports(v.bar, source, MinuteIn(GridOf(u), b))
  {
    MinutelySplit(source);
    ViewSummarizes(u, Split(source).minutes, cov, b);
    SummaryReports(v.bar, source, GridOf(u), b);
  }

  lemma ShortSays(u: Unit, v: View, source: seq<SourceCandle>, cov: set<Slice>, b: Time)
    requires !DaySlots(u) && u != Day1 && ViewAt(u, Split(source), cov, b) == Some(v)
    ensures v.bar.at == b && FromMinutes(v, source, GridOf(u), SlotCount(u, b), cov)
  {
    FrameFields(u, b);
    ShortMeans(v, FrameOf(u), source, cov, b);
  }

  lemma DaySays(v: View, source: seq<SourceCandle>, cov: set<Slice>, d: Time)
    requires ViewAt(Day1, Split(source), cov, d) == Some(v)
    ensures v.bar.at == d
    ensures if exists c :: c in source && c.daily && c.start == d
      then exists i: nat :: LastAt(source, i, d) && Carries(v, source[i])
      else FromMinutes(v, source, GridOf(Day1), SlotCount(Day1, d), cov)
  {
    FrameFields(Day1, d);
    DayMeans(v, FrameOf(Day1), source, cov, d);
  }

  lemma DaysListed(source: seq<SourceCandle>, cov: set<Slice>, days: seq<View>)
    requires Lists(days, Keys(Day1, Split(source)), ViewsOf(Day1, Split(source), cov))
    ensures Lists(days, DayKeys(FrameOf(Day1).grid, Split(source)), DayViews(FrameOf(Day1), Split(source), cov))
  {
    ListsSame(days, Keys(Day1, Split(source)), ViewsOf(Day1, Split(source), cov),
              DayViews(FrameOf(Day1), Split(source), cov));
  }

  lemma LongViewIs(u: Unit, inp: Inputs, cov: set<Slice>, b: Time)
    requires DaySlots(u)
    ensures ViewAt(u, inp, cov, b) == LongView(FrameOf(u), FrameOf(Day1), inp, cov, b)
  {}

  lemma LongFrame(u: Unit, b: Time)
    requires DaySlots(u)
    ensures FrameOf(u).grid == GridOf(u) && FrameOf(u).slot == DAY && FrameOf(u).count(b) == SlotCount(u, b)
  {}

  lemma LongSays(u: Unit, v: View, source: seq<SourceCandle>, cov: set<Slice>, days: seq<View>, b: Time)
    requires DaySlots(u) && ViewAt(u, Split(source), cov, b) == Some(v)
    requires Lists(days, Keys(Day1, Split(source)), ViewsOf(Day1, Split(source), cov))
    ensures v.bar.at == b && FromDays(v, days, GridOf(u), SlotCount(u, b), cov)
  {
    LongFrame(u, b);
    LongViewIs(u, Split(source), cov, b);
    DaysListed(source, cov, days);
    DaysMean(v, FrameOf(u), FrameOf(Day1), source, cov, days, b);
  }

  lemma CandleSays(u: Unit, v: View, source: seq<SourceCandle>, cov: set<Slice>, days: seq<View>, b: Time)
    requires ViewAt(u, Split(source), cov, b) == Some(v)
    requires Lists(days, Keys(Day1, Split(source)), ViewsOf(Day1, Split(source), cov))
    ensures v.bar.at == b && Says(u, v, source, cov, days)
  {
    if DaySlots(u) {
      LongSays(u, v, source, cov, days, b);
    } else if u == Day1 {
      DaySays(v, source, cov, b);
    } else {
      ShortSays(u, v, source, cov, b);
    }
    if Minutely(source) { MinutelyReports(u, v, source, cov, b); }
  }

  lemma SourceKey(u: Unit, source: seq<SourceCandle>, c: SourceCandle, b: Time)
    requires c in source && GoesInto(u, c, b)
    ensures b in Keys(u, Split(source))
  {
    SplitHas(source, c);
    var inp := Split(source);
    if DaySlots(u) {
      DayNests(u, c.start);
      assert (if c.daily then c.start else BucketStart(Day1, c.start)) in DayKeys(GridOf(Day1), inp);
    }
  }

  /** What `AggregateCandles` returns: candles in strict order of start, one for every bucket that a source candle
      goes into, each of which says what its source candles, slots and days do. */
  lemma CandlesSay(u: Unit, source: seq<SourceCandle>, cov: set<Slice>, result: seq<View>, days: seq<View>)
    requires Lists(result, Keys(u, Split(source)), ViewsOf(u, Split(source), cov))
    requires Lists(days, Keys(Day1, Split(source)), ViewsOf(Day1, Split(source), cov))
    ensures forall i, j :: 0 <= i < j < |result| ==> result[i].bar.at < result[j].bar.at
    ensures forall c, b :: c in source && GoesInto(u, c, b) ==> exists v :: v in result && v.bar.at == b
    ensures forall v :: v in result ==> Says(u, v, source, cov, days)
  {
    var ks := InOrder(Keys(u, Split(source)));
    forall c, b | c in source && GoesInto(u, c, b) ensures exists v :: v in result && v.bar.at == b {
      SourceKey(u, source, c, b);
      assert b in ks;
      var i :| 0 <= i < |ks| && ks[i] == b;
      assert result[i] in result;
    }
    forall v | v in result ensures Says(u, v, source, cov, days) {
      var i :| 0 <= i < |result| && result[i] == v;
      CandleSays(u, v, source, cov, days, ks[i]);
    }
  }
}
