/** Compressing changed instants into contiguous, bounded ranges of roll-up buckets
    (`affected_rollup_ranges` and `affected_rollup_ranges_for_interval`). */
module RollupRanges {
  import opened Ordering
  import opened Calendar

  const MAX_BUCKETS: nat := 512

  /** `count` buckets of `unit`, from `start` up to `end`. */
  datatype Range = Range(unit: Unit, start: Time, end: Time, count: nat)

  predicate AllStarts(g: Grid, s: seq<Time>) {
    forall i :: 0 <= i < |s| ==> g.start(s[i]) == s[i]
  }

  /** `y` is the bucket right after `x`. */
  predicate Follows(g: Grid, x: Time, y: Time) { y == g.end(x) }

  /** The first `n` buckets of `s` abut. */
  ghost predicate Contiguous(g: Grid, s: seq<Time>, n: nat)
    requires n <= |s|
  {
    forall j, k :: 0 <= j < k < n && k == j + 1 ==> Follows(g, s[j], s[k])
  }

  /** Length of the longest contiguous run of buckets at the front of `s`, at most `cap`. */
  function RunLength(g: Grid, s: seq<Time>, cap: nat): (n: nat)
    requires s != [] && 1 <= cap
    ensures 1 <= n <= cap && n <= |s|
  {
    if |s| == 1 || cap == 1 || !Follows(g, s[0], s[1]) then 1
    else 1 + RunLength(g, s[1..], cap - 1)
  }

  /** Cut a list of bucket starts greedily into contiguous runs of at most 512. */
  function Chunks(u: Unit, g: Grid, s: seq<Time>): seq<Range> {
    if s == [] then [] else
      var n := RunLength(g, s, MAX_BUCKETS);
      [Range(u, s[0], g.end(s[n - 1]), n)] + Chunks(u, g, s[n..])
  }

  /** A run that cannot be extended is the longest one. */
  lemma {:induction false} RunLengthIs(g: Grid, s: seq<Time>, cap: nat, n: nat)
    requires s != [] && 1 <= n <= cap && n <= |s| && Contiguous(g, s, n)
    requires n == |s| || n == cap || !Follows(g, s[n - 1], s[n])
    ensures RunLength(g, s, cap) == n
  {
    if n > 1 {
      assert Follows(g, s[0], s[1]);
      forall j, k | 0 <= j < k < n - 1 && k == j + 1 ensures Follows(g, s[1..][j], s[1..][k]) {
        assert Follows(g, s[j + 1], s[k + 1]);
      }
      RunLengthIs(g, s[1..], cap - 1, n - 1);
    }
  }

  lemma {:induction false} RunLengthContiguous(g: Grid, s: seq<Time>, cap: nat)
    requires s != [] && 1 <= cap
    ensures Contiguous(g, s, RunLength(g, s, cap))
  {
    var n := RunLength(g, s, cap);
    if n > 1 {
      RunLengthContiguous(g, s[1..], cap - 1);
      forall j, k | 0 <= j < k < n && k == j + 1 ensures Follows(g, s[j], s[k]) {
        if k > 1 { assert Follows(g, s[1..][j - 1], s[1..][k - 1]); }
      }
    }
  }

  // ---------------------------------------------------------------- changed instants

  function StartSet(g: Grid, changed: set<Time>): set<Time> {
    set t | t in changed :: g.start(t)
  }

  /** The distinct bucket starts of the changed instants, in order. */
  function Starts(g: Grid, changed: set<Time>): (r: seq<Time>)
    ensures Increasing(r)
    ensures forall b :: b in r <==> b in StartSet(g, changed)
  {
    var r := Ascending(StartSet(g, changed));
    assert forall i :: 0 <= i < |r| ==> r[i] in r && r[i] in StartSet(g, changed);
    r
  }

  lemma StartsAligned(g: Grid, changed: set<Time>)
    requires Tiling(g)
    ensures AllStarts(g, Starts(g, changed))
  {
    var r := Starts(g, changed);
    forall i | 0 <= i < |r| ensures g.start(r[i]) == r[i] {
      assert r[i] in r;
      var t :| t in changed && g.start(t) == r[i];
      GridContains(g, t);
    }
  }

  function UnitChunks(u: Unit, changed: set<Time>): seq<Range> {
    Chunks(u, GridOf(u), Starts(GridOf(u), changed))
  }

  function ChunksOf(changed: set<Time>): Unit -> seq<Range> { u => UnitChunks(u, changed) }

  /** The ranges of the first `k` units, unit by unit. */
  function Collect(per: Unit -> seq<Range>, units: seq<Unit>, k: nat): seq<Range>
    requires k <= |units|
  {
    if k == 0 then [] else Collect(per, units, k - 1) + per(units[k - 1])
  }

  /** The ranges of every unit. */
  function Affected(changed: set<Time>, units: seq<Unit>): seq<Range> {
    Collect(ChunksOf(changed), units, |units|)
  }

  lemma {:induction false} CollectHas(per: Unit -> seq<Range>, units: seq<Unit>, k: nat, i: nat, r: Range)
    requires i < k <= |units| && r in per(units[i])
    ensures r in Collect(per, units, k)
    decreases k
  {
    if i != k - 1 { CollectHas(per, units, k - 1, i, r); }
  }

  lemma {:induction false} CollectFrom(per: Unit -> seq<Range>, units: seq<Unit>, k: nat, r: Range) returns (i: nat)
    requires k <= |units| && r in Collect(per, units, k)
    ensures i < k && r in per(units[i])
    decreases k
  {
    if r in per(units[k - 1]) { i := k - 1; } else { i := CollectFrom(per, units, k - 1, r); }
  }

  /** The grouping loop of `affected_rollup_ranges` for one unit. */
  method GroupStarts(u: Unit, g: Grid, starts: seq<Time>) returns (result: seq<Range>)
    ensures result == Chunks(u, g, starts)
  {
    result := [];
    if starts == [] { return; }
    var groupStart, previous, count := starts[0], starts[0], 1;
    ghost var from := 0;
    NothingDone(u, g, starts);
    for i := 1 to |starts|
      invariant from + count == i && 1 <= count <= MAX_BUCKETS && groupStart == starts[from]
      invariant previous == starts[i - 1]
      invariant RunAt(g, starts, from, count) && Pending(u, g, starts, from, result)
    {
      var current := starts[i];
      if current == g.end(previous) && count < MAX_BUCKETS {
        ExtendRun(g, starts, from, count);
        previous, count := current, count + 1;
      } else {
        CloseGroup(u, g, starts, from, count, result);
        result := result + [Range(u, groupStart, g.end(previous), count)];
        groupStart, previous, count, from := current, current, 1, i;
      }
    }
    CloseLast(u, g, starts, from, count, result);
    result := result + [Range(u, groupStart, g.end(previous), count)];
  }

  /** What is done, and the ranges of the starts from `from` on, make up the whole. */
  ghost predicate Pending(u: Unit, g: Grid, s: seq<Time>, from: nat, done: seq<Range>)
    requires from <= |s|
  {
    done + Chunks(u, g, s[from..]) == Chunks(u, g, s)
  }

  /** `count` buckets of `s` abut, from position `from` on. */
  ghost predicate RunAt(g: Grid, s: seq<Time>, from: nat, count: nat)
    requires from + count <= |s|
  {
    forall j, k :: from <= j < k < from + count && k == j + 1 ==> Follows(g, s[j], s[k])
  }

  lemma ExtendRun(g: Grid, s: seq<Time>, from: nat, count: nat)
    requires 1 <= count && from + count < |s| && RunAt(g, s, from, count)
    requires s[from + count] == g.end(s[from + count - 1])
    ensures RunAt(g, s, from, count + 1)
  {}

  lemma NothingDone(u: Unit, g: Grid, s: seq<Time>)
    ensures Pending(u, g, s, 0, [])
  {
    assert s[0..] == s;
  }

  lemma FirstChunk(u: Unit, g: Grid, s: seq<Time>, count: nat)
    requires 1 <= count <= MAX_BUCKETS && count <= |s| && Contiguous(g, s, count)
    requires count == |s| || count == MAX_BUCKETS || !Follows(g, s[count - 1], s[count])
    ensures Chunks(u, g, s) == [Range(u, s[0], g.end(s[count - 1]), count)] + Chunks(u, g, s[count..])
  {
    RunLengthIs(g, s, MAX_BUCKETS, count);
  }

  lemma RunContiguous(g: Grid, s: seq<Time>, from: nat, count: nat)
    requires from + count <= |s| && RunAt(g, s, from, count)
    ensures Contiguous(g, s[from..], count)
  {
    forall j, k | 0 <= j < k < count && k == j + 1 ensures Follows(g, s[from..][j], s[from..][k]) {
      assert Follows(g, s[from + j], s[from + k]);
    }
  }

  lemma Regroup<T>(done: seq<T>, x: T, rest: seq<T>)
    ensures (done + [x]) + rest == done + ([x] + rest)
  {}

  lemma Tail<T>(s: seq<T>, from: nat, count: nat)
    requires from + count <= |s|
    ensures s[from..][count..] == s[from + count..]
  {}

  /** Closing a group of `count` buckets keeps what is done plus what is to come. */
  lemma CloseGroup(u: Unit, g: Grid, s: seq<Time>, from: nat, count: nat, done: seq<Range>)
    requires from + count <= |s| && 1 <= count <= MAX_BUCKETS && RunAt(g, s, from, count)
    requires from + count == |s| || count == MAX_BUCKETS || !Follows(g, s[from + count - 1], s[from + count])
    requires Pending(u, g, s, from, done)
    ensures Pending(u, g, s, from + count, done + [Range(u, s[from], g.end(s[from + count - 1]), count)])
  {
    RunContiguous(g, s, from, count);
    FirstChunk(u, g, s[from..], count);
    Tail(s, from, count);
    Regroup(done, Range(u, s[from], g.end(s[from + count - 1]), count), Chunks(u, g, s[from + count..]));
  }

  lemma CloseLast(u: Unit, g: Grid, s: seq<Time>, from: nat, count: nat, done: seq<Range>)
    requires from + count == |s| && 1 <= count <= MAX_BUCKETS && RunAt(g, s, from, count)
    requires Pending(u, g, s, from, done)
    ensures done + [Range(u, s[from], g.end(s[from + count - 1]), count)] == Chunks(u, g, s)
  {
    CloseGroup(u, g, s, from, count, done);
    assert s[from + count..] == [];
  }

  method UnitRanges(u: Unit, changed: set<Time>) returns (result: seq<Range>)
    ensures result == UnitChunks(u, changed)
  {
    result := GroupStarts(u, GridOf(u), Starts(GridOf(u), changed));
  }

  /** `affected_rollup_ranges`. */
  method AffectedRanges(changed: seq<Time>, units: seq<Unit>) returns (result: seq<Range>)
    ensures result == Affected((set t | t in changed), units)
  {
    var all := set t | t in changed;
    result := [];
    for k := 0 to |units|
      invariant result == Collect(ChunksOf(all), units, k)
    {
      var ranges := UnitRanges(units[k], all);
      result := result + ranges;
    }
  }

  // ---------------------------------------------------------------- a whole interval

  /** The consecutive buckets from `first` through `last`. */
  ghost function Chain(g: Grid, first: Time, last: Time): (r: seq<Time>)
    requires Tiling(g) && g.start(first) == first
    decreases if first <= last then last - first + 1 else 0
  {
    if first > last then [] else
      GridEnd(g, first);
      [first] + Chain(g, g.end(first), last)
  }

  lemma {:induction false} ChainIs(g: Grid, first: Time, last: Time)
    requires Tiling(g) && g.start(first) == first
    ensures var c := Chain(g, first, last);
      Increasing(c) && AllStarts(g, c) && Contiguous(g, c, |c|) && forall i :: 0 <= i < |c| ==> first <= c[i] <= last
    decreases if first <= last then last - first + 1 else 0
  {
    if first <= last {
      GridEnd(g, first);
      var next := g.end(first);
      ChainIs(g, next, last);
      var c, d := Chain(g, first, last), Chain(g, next, last);
      assert next <= last ==> d[0] == next;
      forall j, k | 0 <= j < k < |c| && k == j + 1 ensures Follows(g, c[j], c[k]) {
        if k > 1 { assert Follows(g, d[j - 1], d[k - 1]); }
      }
    }
  }

  lemma {:induction false} ChainHas(g: Grid, first: Time, last: Time, b: Time)
    requires Tiling(g) && g.start(first) == first && g.start(b) == b && first <= b <= last
    ensures b in Chain(g, first, last)
    decreases last - first
  {
    if b != first {
      GridEnd(g, first);
      GridEndBelow(g, first, b);
      ChainHas(g, g.end(first), last, b);
    }
  }

  predicate Within(t: Time, lo: Time, hi: Time) { lo <= t < hi }

  function Instants(lo: Time, hi: Time): (s: set<Time>)
    ensures forall t :: t in s <==> lo <= t < hi
  {
    set t: Time | lo <= t < hi && Within(t, lo, hi)
  }

  lemma IntervalStart(g: Grid, lo: Time, hi: Time, b: Time)
    requires Tiling(g) && lo < hi && g.start(b) == b && g.start(lo) <= b <= g.start(hi - 1)
    ensures b in StartSet(g, Instants(lo, hi))
  {
    GridContains(g, hi - 1);
    if b < lo { GridMonotone(g, b, lo); }
    var t: Time := if b < lo then lo else b;
    assert t in Instants(lo, hi) && g.start(t) == b;
  }

  /** The buckets of all instants of an interval are the consecutive ones it meets. */
  lemma IntervalStarts(g: Grid, lo: Time, hi: Time)
    requires Tiling(g) && lo < hi
    ensures g.start(g.start(lo)) == g.start(lo)
    ensures Starts(g, Instants(lo, hi)) == Chain(g, g.start(lo), g.start(hi - 1))
  {
    GridContains(g, lo);
    var s, c := Starts(g, Instants(lo, hi)), Chain(g, g.start(lo), g.start(hi - 1));
    ChainIs(g, g.start(lo), g.start(hi - 1));
    forall b: int | b in s ensures b in c {
      var t :| t in Instants(lo, hi) && g.start(t) == b;
      GridContains(g, t);
      GridMonotone(g, lo, t);
      GridMonotone(g, t, hi - 1);
      ChainHas(g, g.start(lo), g.start(hi - 1), b);
    }
    forall b: int | b in c ensures b in s {
      var i :| 0 <= i < |c| && c[i] == b;
      IntervalStart(g, lo, hi, c[i]);
    }
    IncreasingUnique(s, c);
  }

  /** One group of `affected_rollup_ranges_for_interval`: at most 512 buckets from `groupStart` on. */
  method TakeGroup(g: Grid, groupStart: Time, last: Time) returns (current: Time, count: nat)
    requires Tiling(g) && g.start(groupStart) == groupStart && groupStart <= last
    ensures g.start(current) == current && groupStart < current
    ensures var group := Chain(g, groupStart, last);
      && 1 <= count <= |group| && count <= MAX_BUCKETS && group[count..] == Chain(g, current, last)
      && current == g.end(group[count - 1])
      && (count == |group| || count == MAX_BUCKETS)
  {
    current, count := groupStart, 0;
    ghost var group := Chain(g, groupStart, last);
    while current <= last && count < MAX_BUCKETS
      invariant g.start(current) == current
      invariant count <= |group| && count <= MAX_BUCKETS && group[count..] == Chain(g, current, last)
      invariant count == 0 ==> current == groupStart
      invariant count > 0 ==> current == g.end(group[count - 1]) && groupStart < current
      decreases if current <= last then last - current + 1 else 0
    {
      GridEnd(g, current);
      assert group[count..][0] == current && group[count + 1..] == group[count..][1..];
      current := g.end(current);
      count := count + 1;
    }
  }

  /** The loops of `affected_rollup_ranges_for_interval` for one unit. */
  method GroupInterval(u: Unit, g: Grid, first: Time, last: Time) returns (result: seq<Range>)
    requires Tiling(g) && g.start(first) == first
    ensures result == Chunks(u, g, Chain(g, first, last))
  {
    result := [];
    var current: Time := first;
    while current <= last
      invariant g.start(current) == current
      invariant result + Chunks(u, g, Chain(g, current, last)) == Chunks(u, g, Chain(g, first, last))
      decreases if current <= last then last - current + 1 else 0
    {
      var groupStart := current;
      ghost var group := Chain(g, groupStart, last);
      var count;
      current, count := TakeGroup(g, groupStart, last);
      ChainIs(g, groupStart, last);
      FirstChunk(u, g, group, count);
      Regroup(result, Range(u, groupStart, current, count), Chunks(u, g, group[count..]));
      result := result + [Range(u, groupStart, current, count)];
    }
  }

  /** One unit of `affected_rollup_ranges_for_interval`. */
  method UnitInterval(u: Unit, lo: Time, hi: Time) returns (result: seq<Range>)
    requires lo < hi
    ensures result == UnitChunks(u, Instants(lo, hi))
  {
    var g := GridOf(u);
    UnitGrid(u);
    IntervalStarts(g, lo, hi);
    result := GroupInterval(u, g, g.start(lo), g.start(hi - 1));
  }

  /** `affected_rollup_ranges_for_interval` refines the point form: it yields exactly the ranges of all
      the interval's instants. */
  method AffectedRangesForInterval(lo: Time, hi: Time, units: seq<Unit>) returns (result: seq<Range>)
    ensures lo >= hi ==> result == []
    ensures lo < hi ==> result == Affected(Instants(lo, hi), units)
  {
    result := [];
    if lo >= hi { return; }
    for k := 0 to |units|
      invariant result == Collect(ChunksOf(Instants(lo, hi)), units, k)
    {
      var ranges := UnitInterval(units[k], lo, hi);
      result := result + ranges;
    }
  }

  // ---------------------------------------------------------------- what the ranges mean

  /** The bucket `n` buckets after `b`. */
  function Advance(g: Grid, b: Time, n: nat): Time
    decreases n
  {
    if n == 0 then b else Advance(g, g.end(b), n - 1)
  }

  lemma {:induction false} AdvanceRun(g: Grid, s: seq<Time>, n: nat)
    requires 1 <= n <= |s| && Contiguous(g, s, n)
    ensures Advance(g, s[0], n) == g.end(s[n - 1])
  {
    if n > 1 {
      assert Follows(g, s[0], s[1]);
      forall j, k | 0 <= j < k < n - 1 && k == j + 1 ensures Follows(g, s[1..][j], s[1..][k]) {
        assert Follows(g, s[j + 1], s[k + 1]);
      }
      AdvanceRun(g, s[1..], n - 1);
    }
  }

  /** A range of 1 to 512 whole buckets of its unit. */
  predicate Whole(u: Unit, g: Grid, r: Range) {
    && r.unit == u && 1 <= r.count <= 512
    && g.start(r.start) == r.start && g.start(r.end) == r.end
    && r.start < r.end == Advance(g, r.start, r.count)
  }

  lemma {:induction false} RunBounds(g: Grid, s: seq<Time>, n: nat)
    requires Tiling(g) && AllStarts(g, s) && 1 <= n <= |s| && Contiguous(g, s, n)
    ensures s[0] < g.end(s[n - 1]) && g.start(g.end(s[n - 1])) == g.end(s[n - 1])
    decreases n
  {
    GridEnd(g, s[n - 1]);
    if n > 1 {
      RunBounds(g, s, n - 1);
      assert Follows(g, s[n - 2], s[n - 1]);
    }
  }

  lemma {:induction false} ChunksWhole(u: Unit, g: Grid, s: seq<Time>, r: Range)
    requires Tiling(g) && AllStarts(g, s) && r in Chunks(u, g, s)
    ensures Whole(u, g, r)
    decreases |s|
  {
    var n := RunLength(g, s, MAX_BUCKETS);
    if r in Chunks(u, g, s[n..]) {
      ChunksWhole(u, g, s[n..], r);
    } else {
      RunLengthContiguous(g, s, MAX_BUCKETS);
      AdvanceRun(g, s, n);
      RunBounds(g, s, n);
    }
  }

  lemma {:induction false} RunHolds(g: Grid, s: seq<Time>, n: nat, i: nat)
    requires Tiling(g) && AllStarts(g, s) && Increasing(s) && i < n <= |s| && Contiguous(g, s, n)
    ensures s[0] <= s[i] < g.end(s[n - 1])
  {
    GridEnd(g, s[n - 1]);
  }

  /** The changed buckets are covered: each lies in one of the ranges. */
  lemma {:induction false} ChunksCover(u: Unit, g: Grid, s: seq<Time>, b: Time) returns (r: Range)
    requires Tiling(g) && AllStarts(g, s) && Increasing(s) && b in s
    ensures r in Chunks(u, g, s) && r.start <= b < r.end
    decreases |s|
  {
    var n := RunLength(g, s, MAX_BUCKETS);
    var i :| 0 <= i < |s| && s[i] == b;
    if i < n {
      RunLengthContiguous(g, s, MAX_BUCKETS);
      RunHolds(g, s, n, i);
      r := Range(u, s[0], g.end(s[n - 1]), n);
    } else {
      assert s[n..][i - n] == b;
      r := ChunksCover(u, g, s[n..], b);
    }
  }

  lemma {:induction false} RunOnly(g: Grid, s: seq<Time>, n: nat, b: Time)
    requires Tiling(g) && AllStarts(g, s) && 1 <= n <= |s| && Contiguous(g, s, n)
    requires g.start(b) == b && s[0] <= b < g.end(s[n - 1])
    ensures b in s
    decreases n
  {
    if s[n - 1] <= b {
      GridUnique(g, s[n - 1], b);
    } else {
      assert n > 1 && Follows(g, s[n - 2], s[n - 1]);
      RunOnly(g, s, n - 1, b);
    }
  }

  /** Nothing else is covered: a bucket inside a range is a changed one. */
  lemma {:induction false} ChunksOnly(u: Unit, g: Grid, s: seq<Time>, r: Range, b: Time)
    requires Tiling(g) && AllStarts(g, s)
    requires r in Chunks(u, g, s) && g.start(b) == b && r.start <= b < r.end
    ensures b in s
    decreases |s|
  {
    var n := RunLength(g, s, MAX_BUCKETS);
    if r in Chunks(u, g, s[n..]) {
      ChunksOnly(u, g, s[n..], r, b);
    } else {
      RunLengthContiguous(g, s, MAX_BUCKETS);
      RunOnly(g, s, n, b);
    }
  }

  /** The ranges of one unit are exactly the buckets of the changed instants. */
  lemma AffectedExactly(u: Unit, changed: set<Time>, t: Time)
    ensures (exists r :: r in UnitChunks(u, changed) && r.start <= GridOf(u).start(t) < r.end)
        <==> (exists c :: c in changed && GridOf(u).start(c) == GridOf(u).start(t))
    ensures forall r :: r in UnitChunks(u, changed) ==> Whole(u, GridOf(u), r)
  {
    var g := GridOf(u);
    UnitGrid(u);
    StartsAligned(g, changed);
    var s := Starts(g, changed);
    GridContains(g, t);
    if r :| r in UnitChunks(u, changed) && r.start <= g.start(t) < r.end {
      ChunksOnly(u, g, s, r, g.start(t));
      assert g.start(t) in StartSet(g, changed);
    }
    if c :| c in changed && g.start(c) == g.start(t) {
      assert g.start(t) in StartSet(g, changed);
      var r := ChunksCover(u, g, s, g.start(t));
    }
    forall r | r in UnitChunks(u, changed) ensures Whole(u, g, r) {
      ChunksWhole(u, g, s, r);
    }
  }

  /** Ranges that abut from `from` to `to`, all full but the last. */
  predicate Tiles(rs: seq<Range>, from: Time, to: Time) {
    if rs == [] then from == to
    else rs[0].start == from && (|rs| > 1 ==> rs[0].count == 512) && Tiles(rs[1..], rs[0].end, to)
  }

  lemma {:induction false} ChainTiles(u: Unit, g: Grid, first: Time, last: Time)
    requires Tiling(g) && g.start(first) == first && g.start(last) == last && first <= last
    ensures Tiles(Chunks(u, g, Chain(g, first, last)), first, g.end(last))
    decreases last - first
  {
    var c := Chain(g, first, last);
    ChainIs(g, first, last);
    ChainHas(g, first, last, last);
    RunLengthContiguous(g, c, MAX_BUCKETS);
    ChainRun(g, first, last);
    var n := RunLength(g, c, MAX_BUCKETS);
    var next := g.end(c[n - 1]);
    GridEnd(g, c[n - 1]);
    ChainDrop(g, first, last, n);
    if next <= last {
      ChainTiles(u, g, next, last);
    } else {
      assert Chain(g, next, last) == [] && c[n..] == [];
      var k :| 0 <= k < |c| && c[k] == last;
      assert k == n - 1;
    }
  }

  lemma ChainRun(g: Grid, first: Time, last: Time)
    requires Tiling(g) && g.start(first) == first && first <= last
    ensures var c := Chain(g, first, last);
      RunLength(g, c, MAX_BUCKETS) == if |c| < MAX_BUCKETS then |c| else MAX_BUCKETS
  {
    ChainIs(g, first, last);
    var c := Chain(g, first, last);
    RunLengthIs(g, c, MAX_BUCKETS, if |c| < MAX_BUCKETS then |c| else MAX_BUCKETS);
  }

  lemma {:induction false} ChainDrop(g: Grid, first: Time, last: Time, n: nat)
    requires Tiling(g) && g.start(first) == first && 1 <= n <= |Chain(g, first, last)|
    ensures var c := Chain(g, first, last);
      g.start(g.end(c[n - 1])) == g.end(c[n - 1]) && c[n..] == Chain(g, g.end(c[n - 1]), last)
    decreases n
  {
    GridEnd(g, first);
    if n > 1 { ChainDrop(g, g.end(first), last, n - 1); }
  }

  lemma GridIntervalTiles(u: Unit, g: Grid, lo: Time, hi: Time)
    requires Tiling(g) && lo < hi
    ensures Tiles(Chunks(u, g, Starts(g, Instants(lo, hi))), g.start(lo), g.end(g.start(hi - 1)))
    ensures g.start(g.end(g.start(hi - 1))) == g.end(g.start(hi - 1)) && hi <= g.end(g.start(hi - 1))
  {
    IntervalStarts(g, lo, hi);
    GridContains(g, hi - 1);
    GridMonotone(g, lo, hi - 1);
    GridEnd(g, g.start(hi - 1));
    ChainTiles(u, g, g.start(lo), g.start(hi - 1));
  }

  lemma GridFirstBoundary(g: Grid, hi: Time, b: Time)
    requires Tiling(g) && 0 < hi && g.start(b) == b && hi <= b
    ensures g.end(g.start(hi - 1)) <= b
  {
    GridContains(g, hi - 1);
    GridEndBelow(g, g.start(hi - 1), b);
  }

  /** For every unit the ranges of an interval tile from the bucket of its start to the first boundary at
      or after its end. */
  lemma IntervalTiles(u: Unit, lo: Time, hi: Time, b: Time)
    requires lo < hi
    ensures var to := GridOf(u).end(GridOf(u).start(hi - 1));
      && Tiles(UnitChunks(u, Instants(lo, hi)), GridOf(u).start(lo), to)
      && GridOf(u).start(to) == to && hi <= to
      && (GridOf(u).start(b) == b && hi <= b ==> to <= b)
  {
    UnitGrid(u);
    GridIntervalTiles(u, GridOf(u), lo, hi);
    if GridOf(u).start(b) == b && hi <= b { GridFirstBoundary(GridOf(u), hi, b); }
  }
}
