/** Rolling source candles up into the candles of a unit (`aggregate_candles`), as a function of the
    source, the coverage and the bucket. */
module Rollup {
  import opened Ordering
  import opened Calendar
  import opened Coverage

  /** A content hash, kept as the payload it digests. */
  datatype Hash = Absent | Given(text: string) | OfInputs(inputs: seq<HashInput>)
  datatype HashInput = HashInput(at: Time, open: real, high: real, low: real, close: real,
                                 volume: real, amount: real, source: Hash)

  datatype SourceCandle = SourceCandle(daily: bool, start: Time, open: real, high: real, low: real, close: real,
                                       volume: real, amount: real, collectedAt: Time, revision: Option<int>,
                                       hash: Hash, knowledgeAt: Option<Time>)

  /** The fields that a source candle and a rolled-up candle have in common. */
  datatype Bar = Bar(at: Time, open: real, high: real, low: real, close: real, volume: real, amount: real,
                     asOf: Option<Time>, knowledge: Option<Time>, revisions: set<int>, hash: Hash)

  datatype View = View(bar: Bar, complete: bool, quality: Status, through: int)

  datatype Slice = Slice(start: Time, end: Time, status: Status)

  function SourceBar(c: SourceCandle): Bar {
    Bar(c.start, c.open, c.high, c.low, c.close, c.volume, c.amount, Some(c.collectedAt),
        Some(if c.knowledgeAt.Some? then c.knowledgeAt.value else c.collectedAt),
        if c.revision.Some? then {c.revision.value} else {}, c.hash)
  }

  function InputOf(b: Bar): HashInput {
    HashInput(b.at, b.open, b.high, b.low, b.close, b.volume, b.amount, b.hash)
  }

  function InputsOf(s: seq<Bar>): seq<HashInput> {
    if s == [] then [] else [InputOf(s[0])] + InputsOf(s[1..])
  }

  /** `_to_candle_view`: a daily source candle stands for its day as it is. */
  function SourceView(c: SourceCandle): View {
    var b := SourceBar(c);
    View(b.(hash := if c.hash == Absent then OfInputs([InputOf(b)]) else c.hash), true, Available,
         if c.revision.Some? then c.revision.value else 0)
  }

  // ---------------------------------------------------------------- one group

  function High(s: seq<Bar>): real
    requires s != []
  {
    if |s| == 1 then s[0].high else
      var h := High(s[1..]);
      if s[0].high < h then h else s[0].high
  }

  function Low(s: seq<Bar>): real
    requires s != []
  {
    if |s| == 1 then s[0].low else
      var l := Low(s[1..]);
      if l < s[0].low then l else s[0].low
  }

  function Volume(s: seq<Bar>): real { if s == [] then 0.0 else s[0].volume + Volume(s[1..]) }
  function Amount(s: seq<Bar>): real { if s == [] then 0.0 else s[0].amount + Amount(s[1..]) }

  function Later(a: Option<Time>, b: Option<Time>): Option<Time> {
    if a == None then b else if b == None then a else if a.value < b.value then b else a
  }

  function LatestAsOf(s: seq<Bar>): Option<Time> { if s == [] then None else Later(s[0].asOf, LatestAsOf(s[1..])) }

  function LatestKnowledge(s: seq<Bar>): Option<Time> {
    if s == [] then None else Later(s[0].knowledge, LatestKnowledge(s[1..]))
  }

  function Revisions(s: seq<Bar>): set<int> { if s == [] then {} else s[0].revisions + Revisions(s[1..]) }

  /** The statuses of the coverage slices that contain all of [from, to). */
  function Covering(cov: set<Slice>, from: Time, to: Time): set<Status> {
    set c | c in cov && c.start <= from && to <= c.end :: c.status
  }

  /** `_slot_quality`, and "unverified" when nothing covers the slot. */
  function SlotQuality(found: set<Status>): Status {
    if Missing in found then Missing
    else if Unavailable in found then Unavailable
    else if Unverified in found then Unverified
    else if Available in found then Available
    else if NoTrade in found then NoTrade
    else Unverified
  }

  /** The qualities of the first `n` slots of a bucket in which no candle was observed. */
  function MissingSlots(b: Time, slot: nat, n: nat, observed: set<Time>, cov: set<Slice>): seq<Status> {
    if n == 0 then [] else
      var from := b + slot * (n - 1);
      MissingSlots(b, slot, n - 1, observed, cov)
      + (if from in observed then [] else [SlotQuality(Covering(cov, from, from + slot))])
  }

  function WorstQuality(found: seq<Status>): Status {
    if Missing in found then Missing
    else if Unavailable in found then Unavailable
    else if Unverified in found then Unverified
    else if Available in found then Missing
    else Available
  }

  function Times(s: seq<Bar>): set<Time> { set x | x in s :: x.at }

  /** One rolled-up candle from the ordered items of its bucket. */
  function GroupView(b: Time, o: seq<Bar>, slot: nat, n: nat, cov: set<Slice>): View
    requires o != []
  {
    var missing := MissingSlots(b, slot, n, Times(o), cov);
    var complete := |o| == n || (|o| < n && missing != [] && forall q :: q in missing ==> q == NoTrade);
    View(Bar(b, o[0].open, High(o), Low(o), o[|o| - 1].close, Volume(o), Amount(o), LatestAsOf(o),
             LatestKnowledge(o), Revisions(o), OfInputs(InputsOf(o))),
         complete, WorstQuality(missing), 0)
  }

  // ---------------------------------------------------------------- all groups

  /** The source, split by candle unit: minute candles, and daily candles as they stand. */
  datatype Inputs = Inputs(minutes: seq<Bar>, dailies: seq<View>)

  function Split(source: seq<SourceCandle>): Inputs {
    if source == [] then Inputs([], []) else
      var rest := Split(source[1..]);
      if source[0].daily then rest.(dailies := [SourceView(source[0])] + rest.dailies)
      else rest.(minutes := [SourceBar(source[0])] + rest.minutes)
  }

  /** A bucket grid with the slots its completeness is judged by. */
  datatype Frame = Frame(grid: Grid, slot: nat, count: Time -> nat)

  function FrameOf(u: Unit): Frame { Frame(GridOf(u), Slot(u), b => SlotCount(u, b)) }

  predicate ByStart(a: Bar, b: Bar) { a.at <= b.at }

  function InBucket(g: Grid, b: Time): Bar -> bool { (x: Bar) => g.start(x.at) == b }

  /** The minute candles of a bucket, in order. */
  function Group(g: Grid, minutes: seq<Bar>, b: Time): seq<Bar> {
    StableSort(Filter(minutes, InBucket(g, b)), ByStart)
  }

  function ShortView(f: Frame, minutes: seq<Bar>, cov: set<Slice>, b: Time): Option<View> {
    var o := Group(f.grid, minutes, b);
    if o == [] then None else Some(GroupView(b, o, f.slot, f.count(b), cov))
  }

  /** The daily source candle that starts at `d`; the last one if there are several. */
  function LastDaily(dailies: seq<View>, d: Time): Option<View> {
    if dailies == [] then None
    else if dailies[|dailies| - 1].bar.at == d then Some(dailies[|dailies| - 1])
    else LastDaily(dailies[..|dailies| - 1], d)
  }

  lemma {:induction false} LastDailyIn(views: seq<View>, d: Time)
    ensures LastDaily(views, d).Some? <==> exists v :: v in views && v.bar.at == d
    ensures LastDaily(views, d).Some? ==> LastDaily(views, d).value in views && LastDaily(views, d).value.bar.at == d
    decreases |views|
  {
    if views != [] {
      LastDailyIn(views[..|views| - 1], d);
      assert views == views[..|views| - 1] + [views[|views| - 1]];
    }
  }

  /** A daily source candle takes precedence over the day's minutes. */
  function DayView(f: Frame, inp: Inputs, cov: set<Slice>, d: Time): Option<View> {
    var source := LastDaily(inp.dailies, d);
    if source.Some? then source else ShortView(f, inp.minutes, cov, d)
  }

  function DayKeys(g: Grid, inp: Inputs): set<Time> {
    (set x | x in inp.minutes :: g.start(x.at)) + (set v | v in inp.dailies :: v.bar.at)
  }

  function DayBars(f: Frame, inp: Inputs, cov: set<Slice>, ds: seq<Time>): seq<Bar> {
    if ds == [] then [] else
      (match DayView(f, inp, cov, ds[0]) case Some(v) => [v.bar] case None => [])
      + DayBars(f, inp, cov, ds[1..])
  }

  function InOrder(ts: set<Time>): (r: seq<Time>)
    ensures Increasing(r) && forall t :: t in r <==> t in ts
  {
    var r := Ascending(ts);
    assert forall i :: 0 <= i < |r| ==> r[i] in r && r[i] in ts;
    r
  }

  function DaysOf(long: Grid, keys: set<Time>, b: Time): (r: seq<Time>)
    ensures Increasing(r)
    ensures forall d :: d in r <==> d in keys && long.start(d) == b
  {
    InOrder(set d | d in keys && long.start(d) == b)
  }

  /** Weeks and months are rolled up from the days. */
  function LongView(long: Frame, day: Frame, inp: Inputs, cov: set<Slice>, b: Time): Option<View> {
    var o := DayBars(day, inp, cov, DaysOf(long.grid, DayKeys(day.grid, inp), b));
    if o == [] then None else Some(GroupView(b, o, long.slot, long.count(b), cov))
  }

  /** The candle of unit `u` that starts at `b`, if there is one. */
  function ViewAt(u: Unit, inp: Inputs, cov: set<Slice>, b: Time): Option<View> {
    if DaySlots(u) then LongView(FrameOf(u), FrameOf(Day1), inp, cov, b)
    else if u == Day1 then DayView(FrameOf(u), inp, cov, b)
    else ShortView(FrameOf(u), inp.minutes, cov, b)
  }

  function Keys(u: Unit, inp: Inputs): set<Time> {
    if DaySlots(u) then set d | d in DayKeys(GridOf(Day1), inp) :: GridOf(u).start(d)
    else if u == Day1 then DayKeys(GridOf(u), inp)
    else set x | x in inp.minutes :: GridOf(u).start(x.at)
  }

  function ViewsOf(u: Unit, inp: Inputs, cov: set<Slice>): Time -> Option<View> { (b: Time) => ViewAt(u, inp, cov, b) }

  function Tabulated(keys: set<Time>, view: Time -> Option<View>): map<Time, View> {
    map b | b in keys && view(b).Some? :: view(b).value
  }

  /** All candles of unit `u`, by start. */
  function Table(u: Unit, inp: Inputs, cov: set<Slice>): map<Time, View> {
    Tabulated(Keys(u, inp), ViewsOf(u, inp, cov))
  }

  // ---------------------------------------------------------------- order does not matter

  function AtTime(t: Time): Bar -> bool { (x: Bar) => x.at == t }

  /** Two lists have the same candles at each instant, in the same order there. */
  ghost predicate SameBars(a: seq<Bar>, b: seq<Bar>) {
    forall t: Time :: Filter(a, AtTime(t)) == Filter(b, AtTime(t))
  }

  lemma {:induction false} InsertAt(x: Bar, s: seq<Bar>, t: Time)
    ensures Filter(Insert(x, s, ByStart), AtTime(t)) == (if x.at == t then [x] else []) + Filter(s, AtTime(t))
  {
    if s == [] {
    } else if ByStart(x, s[0]) {
      FilterConcat([x], s, AtTime(t));
    } else {
      InsertAt(x, s[1..], t);
      var r := Insert(x, s[1..], ByStart);
      assert Insert(x, s, ByStart) == [s[0]] + r;
      FilterConcat([s[0]], r, AtTime(t));
    }
  }

  lemma {:induction false} SortAt(s: seq<Bar>, t: Time)
    ensures Filter(StableSort(s, ByStart), AtTime(t)) == Filter(s, AtTime(t))
  {
    if s != [] {
      SortAt(s[1..], t);
      InsertAt(s[0], StableSort(s[1..], ByStart), t);
    }
  }

  lemma FilterHead(s: seq<Bar>, t: Time)
    requires s != []
    ensures Filter(s, AtTime(t)) == (if s[0].at == t then [s[0]] else []) + Filter(s[1..], AtTime(t))
  {}

  /** A list sorted by start is determined by what it has at each instant. */
  lemma {:induction false} SortedCanonical(a: seq<Bar>, b: seq<Bar>)
    requires SortedBy(a, ByStart) && SortedBy(b, ByStart) && SameBars(a, b)
    ensures a == b
  {
    assert forall x :: x in a <==> x in b by {
      forall x ensures x in a <==> x in b {
        assert x in a <==> x in Filter(a, AtTime(x.at));
        assert x in b <==> x in Filter(b, AtTime(x.at));
      }
    }
    assert |a| > 0 ==> a[0] in a;
    assert |b| > 0 ==> b[0] in b;
    if |a| > 0 {
      var t := a[0].at;
      assert b[0].at == t by {
        var i :| 0 <= i < |b| && b[i] == a[0];
        var j :| 0 <= j < |a| && a[j] == b[0];
        assert i > 0 ==> ByStart(b[0], b[i]);
        assert j > 0 ==> ByStart(a[0], a[j]);
      }
      FilterHead(a, t);
      FilterHead(b, t);
      assert Filter(a, AtTime(t))[0] == a[0] && Filter(b, AtTime(t))[0] == b[0];
      forall s: Time ensures Filter(a[1..], AtTime(s)) == Filter(b[1..], AtTime(s)) {
        FilterHead(a, s);
        FilterHead(b, s);
        TailEqual(if a[0].at == s then [a[0]] else [], Filter(a[1..], AtTime(s)), Filter(b[1..], AtTime(s)));
      }
      SortedCanonical(a[1..], b[1..]);
    }
  }

  lemma TailEqual<T>(h: seq<T>, a: seq<T>, b: seq<T>)
    requires h + a == h + b
    ensures a == b
  {
    assert (h + a)[|h|..] == a && (h + b)[|h|..] == b;
  }

  lemma ByStartTotal()
    ensures TotalPreorder(ByStart)
  {}

  /** Sorting forgets the order between instants: lists with the same candles at each instant sort alike. */
  lemma SortSame(a: seq<Bar>, b: seq<Bar>)
    requires SameBars(a, b)
    ensures StableSort(a, ByStart) == StableSort(b, ByStart)
  {
    ByStartTotal();
    StableSortSorted(a, ByStart);
    StableSortSorted(b, ByStart);
    forall t: Time ensures Filter(StableSort(a, ByStart), AtTime(t)) == Filter(StableSort(b, ByStart), AtTime(t)) {
      SortAt(a, t);
      SortAt(b, t);
      assert Filter(a, AtTime(t)) == Filter(b, AtTime(t));
    }
    SortedCanonical(StableSort(a, ByStart), StableSort(b, ByStart));
  }
}
