/** Completing minute candles: which ranges are missing (`_missing_source_candle_ranges`), how a range is paged
    backwards through the exchange's API (`fetch_minute_candle_pages`), and the loop that stores what comes
    (`run_backfill_once`, one target). Candles are known by their start; times are UTC microseconds. */
module BackfillFetch {
  import opened Ordering

  const MINUTE := 60_000_000
  const PAGE := 200

  datatype Span = Span(from: int, to: int)

  // ---------------------------------------------------------------- missing ranges

  /** The instants the scan looks at: every minute counted from `start`. */
  predicate Sample(start: int, t: int) { t >= start && (t - start) % MINUTE == 0 }

  predicate Covered(ranges: seq<Span>, t: int) { exists i :: 0 <= i < |ranges| && ranges[i].from <= t < ranges[i].to }

  /** A range starts at an absent minute that follows a stored one, or at the start, and lasts until the next
      stored minute, or to the end. */
  predicate Maximal(existing: set<int>, start: int, end: int, r: Span) {
    && start <= r.from < r.to <= end && Sample(start, r.from) && r.from !in existing
    && (r.from > start ==> r.from - MINUTE in existing)
    && (r.to < end ==> Sample(start, r.to) && r.to in existing)
  }

  ghost predicate Chain(existing: set<int>, start: int, end: int, ranges: seq<Span>) {
    && (forall i :: 0 <= i < |ranges| ==> Maximal(existing, start, end, ranges[i]))
    && (forall i, j :: 0 <= i < j < |ranges| ==> ranges[i].to < ranges[j].from)
  }

  ghost predicate EndBefore(ranges: seq<Span>, t: int) { forall i :: 0 <= i < |ranges| ==> ranges[i].to < t }

  lemma ChainSnoc(existing: set<int>, start: int, end: int, ranges: seq<Span>, r: Span)
    requires Chain(existing, start, end, ranges) && EndBefore(ranges, r.from) && Maximal(existing, start, end, r)
    ensures Chain(existing, start, end, ranges + [r]) && forall t :: t > r.to ==> EndBefore(ranges + [r], t)
  {}

  /** Ordered, disjoint, maximal, and covering exactly the absent minutes. */
  ghost predicate ExactlyMissing(existing: set<int>, start: int, end: int, ranges: seq<Span>) {
    && Chain(existing, start, end, ranges)
    && (forall t :: Sample(start, t) && t < end ==> (Covered(ranges, t) <==> t !in existing))
  }

  lemma NextSample(start: int, current: int, t: int)
    requires Sample(start, current) && Sample(start, t) && current <= t < current + MINUTE
    ensures t == current
  {}

  lemma CoveredSnoc(ranges: seq<Span>, r: Span, t: int)
    ensures Covered(ranges + [r], t) <==> Covered(ranges, t) || r.from <= t < r.to
  {
    var all := ranges + [r];
    if Covered(ranges, t) {
      var i :| 0 <= i < |ranges| && ranges[i].from <= t < ranges[i].to;
      assert all[i] == ranges[i];
    }
    if r.from <= t < r.to { assert all[|ranges|] == r; }
  }

  /** The instant lies in a closed range or in the open one. */
  predicate Found(ranges: seq<Span>, open: Option<int>, t: int) {
    Covered(ranges, t) || (open.Some? && open.value <= t)
  }

  /** What the scan has found before `current`: closed ranges, and the start of an open one. */
  ghost predicate Scanned(existing: set<int>, start: int, end: int, current: int, ranges: seq<Span>,
                          open: Option<int>) {
    && Sample(start, current)
    && Chain(existing, start, end, ranges) && EndBefore(ranges, current)
    && (open.Some? ==> open.value < current && EndBefore(ranges, open.value))
    && (open.Some? ==> Maximal(existing, start, end, Span(open.value, end)))
    && (open == None && current > start ==> current - MINUTE in existing)
    && (forall t :: Sample(start, t) && t < current ==> (Found(ranges, open, t) <==> t !in existing))
  }

  lemma ScanOpen(existing: set<int>, start: int, end: int, current: int, ranges: seq<Span>)
    requires Scanned(existing, start, end, current, ranges, None) && current < end && current !in existing
    ensures Scanned(existing, start, end, current + MINUTE, ranges, Some(current))
  {
    forall t | Sample(start, t) && t < current + MINUTE
      ensures Found(ranges, Some(current), t) <==> t !in existing
    {
      if current <= t { NextSample(start, current, t); }
    }
  }

  lemma ScanStay(existing: set<int>, start: int, end: int, current: int, ranges: seq<Span>, open: Option<int>)
    requires Scanned(existing, start, end, current, ranges, open) && current < end
    requires (open.Some? <==> current !in existing)
    ensures Scanned(existing, start, end, current + MINUTE, ranges, open)
  {
    forall t | Sample(start, t) && t < current + MINUTE
      ensures Found(ranges, open, t) <==> t !in existing
    {
      if current <= t { NextSample(start, current, t); }
    }
  }

  lemma CloseCovers(existing: set<int>, start: int, end: int, current: int, ranges: seq<Span>, open: int, t: int)
    requires Scanned(existing, start, end, current, ranges, Some(open)) && current in existing
    requires Sample(start, t) && t < current + MINUTE
    ensures Covered(ranges + [Span(open, current)], t) <==> t !in existing
  {
    CoveredSnoc(ranges, Span(open, current), t);
    if current <= t { NextSample(start, current, t); }
  }

  lemma CloseChain(existing: set<int>, start: int, end: int, current: int, ranges: seq<Span>, open: int)
    requires Chain(existing, start, end, ranges) && EndBefore(ranges, open) && Sample(start, current)
    requires Maximal(existing, start, end, Span(open, end)) && open < current < end && current in existing
    ensures var closed := ranges + [Span(open, current)];
      Chain(existing, start, end, closed) && EndBefore(closed, current + MINUTE) && Sample(start, current + MINUTE)
  {
    ChainSnoc(existing, start, end, ranges, Span(open, current));
  }

  lemma ScanClose(existing: set<int>, start: int, end: int, current: int, ranges: seq<Span>, open: int)
    requires Scanned(existing, start, end, current, ranges, Some(open)) && current < end && current in existing
    ensures Scanned(existing, start, end, current + MINUTE, ranges + [Span(open, current)], None)
  {
    var closed := ranges + [Span(open, current)];
    CloseChain(existing, start, end, current, ranges, open);
    forall t | Sample(start, t) && t < current + MINUTE ensures Covered(closed, t) <==> t !in existing {
      CloseCovers(existing, start, end, current, ranges, open, t);
    }
  }

  lemma ScanEnd(existing: set<int>, start: int, end: int, current: int, ranges: seq<Span>, open: Option<int>)
    requires Scanned(existing, start, end, current, ranges, open) && current >= end
    ensures ExactlyMissing(existing, start, end, if open.Some? then ranges + [Span(open.value, end)] else ranges)
  {
    if open.Some? {
      ChainSnoc(existing, start, end, ranges, Span(open.value, end));
      forall t | Sample(start, t) && t < end ensures Covered(ranges + [Span(open.value, end)], t) <==> t !in existing {
        CoveredSnoc(ranges, Span(open.value, end), t);
      }
    }
  }

  method MissingSourceCandleRanges(existing: set<int>, start: int, end: int) returns (ranges: seq<Span>)
    ensures ExactlyMissing(existing, start, end, ranges)
  {
    ranges := [];
    var current, open := start, None;
    while current < end
      invariant Scanned(existing, start, end, current, ranges, open)
      decreases end - current
    {
      if current !in existing && open == None {
        ScanOpen(existing, start, end, current, ranges);
        open := Some(current);
      } else if current in existing && open.Some? {
        ScanClose(existing, start, end, current, ranges, open.value);
        ranges := ranges + [Span(open.value, current)];
        open := None;
      } else {
        ScanStay(existing, start, end, current, ranges, open);
      }
      current := current + MINUTE;
    }
    ScanEnd(existing, start, end, current, ranges, open);
    if open.Some? { ranges := ranges + [Span(open.value, end)]; }
  }

  ghost predicate Aligned(s: set<int>) { forall t :: t in s ==> t % MINUTE == 0 }

  /** A whole-minute instant of the job's range that no missing range covers is stored, wherever the range starts. */
  lemma UncoveredIsStored(existing: set<int>, start: int, end: int, ranges: seq<Span>, u: int)
    requires ExactlyMissing(existing, start, end, ranges) && Aligned(existing)
    requires start <= u < end && u % MINUTE == 0 && !Covered(ranges, u)
    ensures u in existing
  {
    var s := u - (u - start) % MINUTE;
    assert Sample(start, s) && s <= u < s + MINUTE;
    if Covered(ranges, s) {
      var i :| 0 <= i < |ranges| && ranges[i].from <= s < ranges[i].to;
      SampleStep(start, end, s, ranges[i].to, u, existing, ranges[i]);
      assert Covered(ranges, u);
    }
    assert s in existing;
    SameMinute(s, u);
  }

  lemma SameMinute(s: int, u: int)
    requires s % MINUTE == 0 && u % MINUTE == 0 && s <= u < s + MINUTE
    ensures u == s
  {}

  lemma SampleStep(start: int, end: int, s: int, to: int, u: int, existing: set<int>, r: Span)
    requires Maximal(existing, start, end, r) && to == r.to && Sample(start, s) && s < to && s <= u < s + MINUTE
    requires u < end
    ensures u < to
  {
    if to < end && to <= u { NextSample(start, s, to); }
  }

  // ---------------------------------------------------------------- paging backwards

  /** The candles of `upstream` in [from, to). */
  function Between(upstream: set<int>, from: int, to: int): set<int> { set t | t in upstream && from <= t < to }

  function Earlier(upstream: set<int>, to: int): set<int> { set t | t in upstream && t < to }

  /** What the exchange answers: the newest candles, at most `count`, that start before `to`. */
  function Newest(upstream: set<int>, to: int, count: nat): (r: set<int>)
    ensures r <= Earlier(upstream, to) && |r| <= count
    ensures forall t, u :: t in r && u in upstream && t <= u < to ==> u in r
    ensures count > 0 && Earlier(upstream, to) != {} ==> r != {}
    ensures |r| < count ==> r == Earlier(upstream, to)
    decreases count
  {
    var before := Earlier(upstream, to);
    if count == 0 || before == {} then {} else
      var g := Greatest(before);
      assert forall u :: u in upstream && g < u < to ==> u in before;
      {g} + Newest(upstream, g, count - 1)
  }

  /** The pages of a backward fetch, put together in order of time. */
  function Joined(pages: seq<seq<int>>): seq<int> {
    if pages == [] then [] else pages[|pages| - 1] + Joined(pages[..|pages| - 1])
  }

  lemma JoinedSnoc(pages: seq<seq<int>>, page: seq<int>)
    ensures Joined(pages + [page]) == page + Joined(pages)
  {
    var all := pages + [page];
    assert all[..|all| - 1] == pages;
  }

  /** Listing earlier candles and then later ones lists all of them. */
  lemma AscendingConcat(a: set<int>, b: set<int>, c: set<int>)
    requires c == a + b && forall x, y :: x in a && y in b ==> x < y
    ensures Ascending(c) == Ascending(a) + Ascending(b)
  {
    var x, y := Ascending(a), Ascending(b);
    forall i, j | 0 <= i < |x| && 0 <= j < |y| ensures x[i] < y[j] { assert x[i] in x && y[j] in y; }
    IncreasingConcat(x, y);
    IncreasingUnique(Ascending(c), x + y);
  }

  function MaxOf(a: int, b: int): int { if a < b then b else a }

  /** The part of a page that lies in the range is all of the range between its oldest candle and the cursor. */
  lemma PageIs(upstream: set<int>, start: int, end: int, cursor: int, oldest: int)
    requires cursor <= end && oldest in Newest(upstream, cursor, PAGE)
    requires forall t :: t in Newest(upstream, cursor, PAGE) ==> oldest <= t
    ensures Between(Newest(upstream, cursor, PAGE), start, end) == Between(upstream, MaxOf(start, oldest), cursor)
    ensures oldest < cursor
  {
    var payload := Newest(upstream, cursor, PAGE);
    assert forall t :: t in payload ==> t in Earlier(upstream, cursor);
  }

  lemma BetweenSplit(upstream: set<int>, from: int, mid: int, to: int)
    requires from <= mid <= to
    ensures Ascending(Between(upstream, from, to))
          == Ascending(Between(upstream, from, mid)) + Ascending(Between(upstream, mid, to))
  {
    AscendingConcat(Between(upstream, from, mid), Between(upstream, mid, to), Between(upstream, from, to));
  }

  lemma PageAdds(upstream: set<int>, start: int, end: int, cursor: int, oldest: int, pages: seq<seq<int>>)
    requires start < cursor <= end && oldest in Newest(upstream, cursor, PAGE)
    requires forall t :: t in Newest(upstream, cursor, PAGE) ==> oldest <= t
    requires Joined(pages) == Ascending(Between(upstream, cursor, end))
    ensures Joined(pages + [Ascending(Between(Newest(upstream, cursor, PAGE), start, end))])
         == Ascending(Between(upstream, MaxOf(start, oldest), end))
    ensures oldest < cursor
  {
    PageIs(upstream, start, end, cursor, oldest);
    JoinedSnoc(pages, Ascending(Between(Newest(upstream, cursor, PAGE), start, end)));
    BetweenSplit(upstream, MaxOf(start, oldest), cursor, end);
  }

  /** No page has more than 200 candles, and all but the last `n` have as many. */
  ghost predicate FullBut(pages: seq<seq<int>>, n: nat) {
    && (forall i :: 0 <= i < |pages| ==> |pages[i]| <= 200)
    && (forall i :: 0 <= i < |pages| - n ==> |pages[i]| == 200)
  }

  lemma FullNext(pages: seq<seq<int>>, n: nat, page: seq<int>, m: nat)
    requires FullBut(pages, n) && |page| <= 200 && if |page| < 200 then m >= n + 1 else m >= n == 0
    ensures FullBut(pages + [page], m)
  {}

  /** A page that does not reach the start of the range lies in it; one that is not full is all there is. */
  lemma PageSize(upstream: set<int>, start: int, end: int, cursor: int, oldest: int)
    requires cursor <= end && oldest in Newest(upstream, cursor, PAGE)
    requires forall t :: t in Newest(upstream, cursor, PAGE) ==> oldest <= t
    ensures |Between(Newest(upstream, cursor, PAGE), start, end)| <= 200
    ensures oldest > start && |Between(Newest(upstream, cursor, PAGE), start, end)| < 200
        ==> Earlier(upstream, oldest) == {}
  {
    var payload := Newest(upstream, cursor, PAGE);
    Smaller(Between(payload, start, end), payload);
    if oldest > start {
      assert Between(payload, start, end) == payload;
    }
  }

  lemma {:induction false} Smaller(a: set<int>, b: set<int>)
    requires a <= b
    ensures |a| <= |b|
  {
    assert b == a + (b - a);
  }

  /** Paging ends, and its pages put together list every upstream candle of the range exactly once, in order.
      Each page but the last two is full. A range that does not end after it starts is an error. */
  method FetchMinuteCandlePages(upstream: set<int>, start: int, end: int) returns (pages: Option<seq<seq<int>>>)
    ensures pages.Some? <==> start < end
    ensures pages.Some? ==> Joined(pages.value) == Ascending(Between(upstream, start, end))
    ensures pages.Some? ==> FullBut(pages.value, 2)
  {
    if start >= end { return None; }
    var cursor, result := end, [];
    assert Between(upstream, cursor, end) == {};
    while cursor > start
      invariant start <= cursor <= end && start < end
      invariant Joined(result) == Ascending(Between(upstream, cursor, end))
      invariant FullBut(result, if Earlier(upstream, cursor) == {} then 1 else 0)
      decreases cursor - start
    {
      var payload := Newest(upstream, cursor, PAGE);
      if payload == {} {
        NothingEarlier(upstream, start, cursor, end);
        JoinedSnoc(result, []);
        FullNext(result, 1, [], 2);
        return Some(result + [[]]);
      }
      var oldest := Least(payload);
      PageAdds(upstream, start, end, cursor, oldest, result);
      PageSize(upstream, start, end, cursor, oldest);
      FullNext(result, 0, Ascending(Between(payload, start, end)),
               if |Between(payload, start, end)| < 200 then 1 else 0);
      result := result + [Ascending(Between(payload, start, end))];
      if oldest <= start {
        assert MaxOf(start, oldest) == start;
        return Some(result);
      }
      cursor := oldest;
    }
    pages := Some(result);
  }

  lemma NothingEarlier(upstream: set<int>, start: int, cursor: int, end: int)
    requires start < cursor <= end && Newest(upstream, cursor, PAGE) == {}
    ensures Between(upstream, cursor, end) == Between(upstream, start, end)
  {
    assert Earlier(upstream, cursor) == {};
    assert forall t :: t in upstream && t < cursor ==> t in Earlier(upstream, cursor);
  }

  lemma SameMembers(seen: set<int>, joined: seq<int>, all: set<int>)
    requires joined == Ascending(all) && forall t :: t in seen <==> t in joined
    ensures seen == all
  {
    assert forall t :: t in seen <==> t in all;
  }

  /** `fetch_minute_candles`: the same candles as one list. */
  method FetchMinuteCandles(upstream: set<int>, start: int, end: int) returns (rows: Option<seq<int>>)
    ensures rows == if start < end then Some(Ascending(Between(upstream, start, end))) else None
  {
    var pages := FetchMinuteCandlePages(upstream, start, end);
    if pages == None { return None; }
    var seen: set<int> := {};
    for n := 0 to |pages.value|
      invariant forall t :: t in seen <==> t in Joined(pages.value[..n])
    {
      var page := pages.value[n];
      assert pages.value[..n + 1] == pages.value[..n] + [page];
      JoinedSnoc(pages.value[..n], page);
      seen := seen + set t | t in page;
    }
    assert pages.value[..|pages.value|] == pages.value;
    SameMembers(seen, Joined(pages.value), Between(upstream, start, end));
    rows := Some(Ascending(seen));
  }

  // ---------------------------------------------------------------- one target of a job

  /** `Ongoing` stands for every status under which work goes on. */
  datatype JobStatus = Ongoing | RetryWait | Paused | Stopped | Failed | Succeeded | DeadLetter | Cancelled

  predicate StopsBeforeRange(s: JobStatus) { s != Ongoing }
  predicate StopsInPage(s: JobStatus) { s in {Paused, Stopped, Failed, Succeeded} }
  predicate StopsAfterRange(s: JobStatus) { s in {RetryWait, Paused, Stopped, DeadLetter, Cancelled} }

  /** When the job's status is read: before a range, between the batches of a page, and after a range. */
  datatype Moment = BeforeRange | BetweenBatches | AfterRange | AfterLast

  /** The statuses that end the target at each moment; after the last range none does. */
  predicate Halts(m: Moment, s: JobStatus) {
    match m
    case BeforeRange => s in {RetryWait, Paused, Stopped, Failed, Succeeded, DeadLetter, Cancelled}
    case BetweenBatches => s in {Paused, Stopped, Failed, Succeeded}
    case AfterRange => s in {RetryWait, Paused, Stopped, DeadLetter, Cancelled}
    case AfterLast => false
  }

  predicate InRange(m: Moment) { m == BeforeRange || m == BetweenBatches }

  predicate Follows(m: Moment, next: Moment) {
    if InRange(m) then next != BeforeRange else m == AfterRange && next == BeforeRange
  }

  /** The moments at which a target can be read, one after the other: range by range, until one has been the last. */
  ghost predicate Walk(moments: seq<Moment>) {
    && (moments != [] ==> moments[0] == BeforeRange)
    && (forall i :: 0 <= i < |moments| - 1 ==>
         Follows(moments[i], moments[i + 1]))
  }

  /** From the `tick`-th on, none of the readings ended the target, except the last one if it was `halted`. */
  ghost predicate Read(moments: seq<Moment>, readings: nat -> JobStatus, tick: nat, halted: bool) {
    && (forall i :: 0 <= i < |moments| - 1 ==> !Halts(moments[i], readings(tick + i)))
    && (moments != [] ==> (Halts(moments[|moments| - 1], readings(tick + |moments| - 1)) <==> halted))
    && (halted ==> moments != [])
  }

  lemma WalkSnoc(moments: seq<Moment>, m: Moment)
    requires Walk(moments)
    requires if moments == [] then m == BeforeRange else Follows(moments[|moments| - 1], m)
    ensures Walk(moments + [m])
  {
    var all := moments + [m];
    forall i | 0 <= i < |all| - 1 ensures Follows(all[i], all[i + 1]) {
      if i < |moments| - 1 { assert Follows(moments[i], moments[i + 1]); }
    }
  }

  lemma ReadSnoc(moments: seq<Moment>, readings: nat -> JobStatus, tick: nat, m: Moment)
    requires Read(moments, readings, tick, false)
    ensures Read(moments + [m], readings, tick, Halts(m, readings(tick + |moments|)))
  {}

  function Batches(n: nat): seq<Moment> { seq(n, _ => BetweenBatches) }

  lemma {:induction false} BatchesRead(moments: seq<Moment>, readings: nat -> JobStatus, n: nat, halted: bool)
    requires moments != [] && InRange(moments[|moments| - 1])
    requires Walk(moments) && Read(moments, readings, 0, false)
    requires Read(Batches(n), readings, |moments|, halted)
    ensures Walk(moments + Batches(n)) && Read(moments + Batches(n), readings, 0, halted)
    ensures InRange((moments + Batches(n))[|moments| + n - 1])
  {
    if n > 0 {
      var was, all := Batches(n - 1), Batches(n);
      assert all == was + [BetweenBatches];
      assert forall i :: 0 <= i < n - 1 ==> was[i] == all[i] && !Halts(all[i], readings(|moments| + i));
      assert Read(was, readings, |moments|, false);
      BatchesRead(moments, readings, n - 1, false);
      assert moments + all == moments + was + [BetweenBatches];
      WalkSnoc(moments + was, BetweenBatches);
      ReadSnoc(moments + was, readings, 0, BetweenBatches);
    } else {
      assert moments + Batches(0) == moments;
    }
  }

  /** `after` is `before` and part of what the exchange has in the span. */
  ghost predicate Gained(before: set<int>, after: set<int>, upstream: set<int>, from: int, to: int) {
    before <= after <= before + Between(upstream, from, to)
  }

  lemma ReadBatch(readings: nat -> JobStatus, tick: nat, n: nat)
    requires Read(Batches(n), readings, tick, false)
    ensures Read(Batches(n + 1), readings, tick, Halts(BetweenBatches, readings(tick + n)))
  {
    assert Batches(n + 1) == Batches(n) + [BetweenBatches];
    ReadSnoc(Batches(n), readings, tick, BetweenBatches);
  }

  lemma ReadMore(readings: nat -> JobStatus, tick: nat, m: nat, n: nat, halted: bool)
    requires Read(Batches(m), readings, tick, false) && Read(Batches(n), readings, tick + m, halted)
    ensures Read(Batches(m + n), readings, tick, halted)
  {
    var a, b, c := Batches(m), Batches(n), Batches(m + n);
    forall i | 0 <= i < m + n - 1 ensures !Halts(c[i], readings(tick + i)) {
      if i < m {
        assert !Halts(a[i], readings(tick + i));
      } else {
        assert !Halts(b[i - m], readings(tick + m + (i - m)));
      }
    }
  }

  /** The first `n` candles of a page, or all of them. */
  function Front(page: seq<int>, n: nat): set<int> {
    set i | 0 <= i < |page| && i < n :: page[i]
  }

  lemma FrontIn(page: seq<int>, n: nat)
    ensures forall t :: t in Front(page, n) ==> t in page
    ensures n >= |page| ==> forall t :: t in page ==> t in Front(page, n)
  {
    forall t | t in page && n >= |page| ensures t in Front(page, n) {
      var i :| 0 <= i < |page| && page[i] == t;
      assert i < n;
    }
  }

  lemma FrontNext(page: seq<int>, start: nat, end: nat)
    requires start <= end <= |page|
    ensures Front(page, end) == Front(page, start) + set t | t in page[start..end]
  {
    var batch := page[start..end];
    forall t | t in Front(page, end) ensures t in Front(page, start) || t in batch {
      var i :| 0 <= i < |page| && i < end && page[i] == t;
      if i >= start { assert batch[i - start] == t; }
    }
    forall t | t in batch ensures t in Front(page, end) {
      var i :| 0 <= i < |batch| && batch[i] == t;
      assert page[start + i] == t;
    }
  }

  /** After `read` readings of the status: one for each batch but the last, all of the page being stored; or, once
      stopped, one for each batch stored. */
  ghost predicate BatchesStored(page: seq<int>, batchSize: nat, before: set<int>, stored: set<int>, read: nat,
                                stopped: bool) {
    && (if page == [] then read == 0 && !stopped else read * batchSize < |page|)
    && stored == before + Front(page, if stopped then read * batchSize else |page|)
    && (!stopped ==> |page| <= (read + 1) * batchSize)
  }

  /** A page is stored in batches; between batches, and only there, the job's status is read, and may end the page
      early, with the batches before it stored. */
  method StorePage(page: seq<int>, batchSize: nat, before: set<int>, readings: nat -> JobStatus, tick: nat)
    returns (stored: set<int>, stopped: bool, next: nat)
    requires batchSize >= 1
    ensures tick <= next && Read(Batches(next - tick), readings, tick, stopped)
    ensures before <= stored && (forall t :: t in stored ==> t in before || t in page)
    ensures !stopped ==> forall t :: t in page ==> t in stored
    ensures BatchesStored(page, batchSize, before, stored, next - tick, stopped)
  {
    stored, stopped, next := before, false, tick;
    var start := 0;
    while start < |page|
      invariant 0 <= start && tick <= next && Read(Batches(next - tick), readings, tick, false)
      invariant start < |page| ==> start == (next - tick) * batchSize && stored == before + Front(page, start)
      invariant start >= |page| ==> stored == before + Front(page, |page|)
      invariant start >= |page| > 0 ==> (next - tick) * batchSize < |page| <= (next - tick + 1) * batchSize
      invariant page == [] ==> next == tick
      decreases |page| - start
    {
      var end := if start + batchSize < |page| then start + batchSize else |page|;
      stored := stored + set t | t in page[start..end];
      FrontNext(page, start, end);
      NextBatch(next - tick, batchSize);
      if end < |page| {
        var status := readings(next);
        ReadBatch(readings, tick, next - tick);
        next := next + 1;
        if StopsInPage(status) {
          FrontIn(page, end);
          return stored, true, next;
        }
      }
      start := start + batchSize;
    }
    FrontIn(page, |page|);
  }

  lemma NextBatch(k: nat, batchSize: nat)
    ensures (k + 1) * batchSize == k * batchSize + batchSize
  {}

  method StoreRange(upstream: set<int>, span: Span, batchSize: nat, before: set<int>, readings: nat -> JobStatus,
                    tick: nat)
    returns (stored: set<int>, stopped: bool, next: nat)
    requires batchSize >= 1 && span.from < span.to
    ensures Gained(before, stored, upstream, span.from, span.to)
    ensures !stopped ==> Between(upstream, span.from, span.to) <= stored
    ensures tick <= next && Read(Batches(next - tick), readings, tick, stopped)
  {
    var pages := FetchMinuteCandlePages(upstream, span.from, span.to);
    PagesHold(pages.value, Between(upstream, span.from, span.to));
    stored, stopped, next := StorePages(pages.value, Between(upstream, span.from, span.to), batchSize, before,
                                        readings, tick);
  }

  lemma PagesHold(pages: seq<seq<int>>, all: set<int>)
    requires Joined(pages) == Ascending(all)
    ensures forall n, t :: 0 <= n < |pages| && t in pages[n] ==> t in all
    ensures forall t :: t in all ==> exists n :: 0 <= n < |pages| && t in pages[n]
  {
    forall n, t | 0 <= n < |pages| && t in pages[n] ensures t in all { InJoined(pages, n, t); }
    forall t | t in all ensures exists n :: 0 <= n < |pages| && t in pages[n] {
      assert t in Joined(pages);
      var n := FromJoined(pages, t);
    }
  }

  lemma {:induction false} InJoined(pages: seq<seq<int>>, n: nat, t: int)
    requires n < |pages| && t in pages[n]
    ensures t in Joined(pages)
    decreases |pages|
  {
    if n < |pages| - 1 { InJoined(pages[..|pages| - 1], n, t); }
  }

  lemma {:induction false} FromJoined(pages: seq<seq<int>>, t: int) returns (n: nat)
    requires t in Joined(pages)
    ensures n < |pages| && t in pages[n]
    decreases |pages|
  {
    n := |pages| - 1;
    if t !in pages[n] { n := FromJoined(pages[..n], t); }
  }

  method StorePages(pages: seq<seq<int>>, all: set<int>, batchSize: nat, before: set<int>, readings: nat -> JobStatus,
                    tick: nat)
    returns (stored: set<int>, stopped: bool, next: nat)
    requires batchSize >= 1
    requires forall n, t :: 0 <= n < |pages| && t in pages[n] ==> t in all
    requires forall t :: t in all ==> exists n :: 0 <= n < |pages| && t in pages[n]
    ensures before <= stored <= before + all
    ensures !stopped ==> all <= stored
    ensures tick <= next && Read(Batches(next - tick), readings, tick, stopped)
  {
    stored, stopped, next := before, false, tick;
    for n := 0 to |pages|
      invariant before <= stored <= before + all && !stopped
      invariant tick <= next && Read(Batches(next - tick), readings, tick, false)
      invariant forall i, t :: 0 <= i < n && t in pages[i] ==> t in stored
    {
      ghost var was, from := stored, next;
      stored, stopped, next := StorePage(pages[n], batchSize, stored, readings, next);
      ReadMore(readings, tick, from - tick, next - from, stopped);
      forall t | t in stored ensures t in before + all { assert t in was || t in pages[n]; }
      if stopped { return; }
    }
    forall t | t in all ensures t in stored {
      var n :| 0 <= n < |pages| && t in pages[n];
    }
  }

  lemma GainedTrans(a: set<int>, b: set<int>, c: set<int>, upstream: set<int>, start: int, end: int, r: Span)
    requires Gained(a, b, upstream, start, end) && Gained(b, c, upstream, r.from, r.to) && start <= r.from
    requires r.to <= end
    ensures Gained(a, c, upstream, start, end)
  {}

  /** The first `n` ranges hold nothing that is not stored. */
  ghost predicate Fetched(upstream: set<int>, ranges: seq<Span>, n: nat, stored: set<int>)
    requires n <= |ranges|
  {
    forall i :: 0 <= i < n ==> Between(upstream, ranges[i].from, ranges[i].to) <= stored
  }

  lemma FetchedNext(upstream: set<int>, ranges: seq<Span>, n: nat, was: set<int>, stored: set<int>)
    requires n < |ranges| && Fetched(upstream, ranges, n, was) && was <= stored
    requires Between(upstream, ranges[n].from, ranges[n].to) <= stored
    ensures Fetched(upstream, ranges, n + 1, stored)
  {}

  /** When all missing ranges have been fetched, stored and fetched candles include every upstream candle. */
  lemma RangesComplete(upstream: set<int>, before: set<int>, stored: set<int>, start: int, end: int, ranges: seq<Span>)
    requires Aligned(upstream) && Aligned(before) && before <= stored
    requires ExactlyMissing(Between(before, start, end), start, end, ranges)
    requires Fetched(upstream, ranges, |ranges|, stored)
    ensures Between(upstream, start, end) <= stored
  {
    forall u | u in Between(upstream, start, end) ensures u in stored {
      if Covered(ranges, u) {
        var i :| 0 <= i < |ranges| && ranges[i].from <= u < ranges[i].to;
        assert u in Between(upstream, ranges[i].from, ranges[i].to);
      } else {
        UncoveredIsStored(Between(before, start, end), start, end, ranges, u);
      }
    }
  }

  lemma SomeMissing(before: set<int>, start: int, end: int, ranges: seq<Span>)
    requires ExactlyMissing(Between(before, start, end), start, end, ranges) && ranges != []
    ensures exists t :: Sample(start, t) && t < end && t !in before
  {
    var r := ranges[0];
    assert Maximal(Between(before, start, end), start, end, r);
    assert Sample(start, r.from) && r.from < end && r.from !in before;
  }

  lemma OngoingGoesOn(moments: seq<Moment>, readings: nat -> JobStatus)
    requires Read(moments, readings, 0, true)
    ensures exists i: nat :: readings(i) != Ongoing
  {
    assert readings(|moments| - 1) != Ongoing;
  }

  /** The target may go on with a range: nothing has been read yet, or the range before was left with no reading that
      ends it. */
  ghost predicate MayGoOn(moments: seq<Moment>, readings: nat -> JobStatus) {
    && Walk(moments) && Read(moments, readings, 0, false)
    && (moments != [] ==> moments[|moments| - 1] == AfterRange)
  }

  lemma BeginRange(moments: seq<Moment>, readings: nat -> JobStatus)
    requires MayGoOn(moments, readings)
    ensures Walk(moments + [BeforeRange])
    ensures Read(moments + [BeforeRange], readings, 0, Halts(BeforeRange, readings(|moments|)))
  {
    WalkSnoc(moments, BeforeRange);
    ReadSnoc(moments, readings, 0, BeforeRange);
  }

  lemma LeaveRange(moments: seq<Moment>, readings: nat -> JobStatus, after: Moment)
    requires Walk(moments) && Read(moments, readings, 0, false) && moments != [] && InRange(moments[|moments| - 1])
    requires after == AfterRange || after == AfterLast
    ensures Walk(moments + [after])
    ensures Read(moments + [after], readings, 0, Halts(after, readings(|moments|)))
  {
    WalkSnoc(moments, after);
    ReadSnoc(moments, readings, 0, after);
  }

  /** One missing range: the status is read, the range is fetched and stored, and the status is read again. */
  method FillRange(upstream: set<int>, span: Span, last: bool, batchSize: nat, before: set<int>,
                   readings: nat -> JobStatus, ghost moments: seq<Moment>, tick: nat)
    returns (stored: set<int>, ended: bool, next: nat, ghost taken: seq<Moment>)
    requires batchSize >= 1 && span.from < span.to && MayGoOn(moments, readings) && tick == |moments|
    ensures Gained(before, stored, upstream, span.from, span.to)
    ensures !ended ==> Between(upstream, span.from, span.to) <= stored
    ensures next == |taken| && Walk(taken) && Read(taken, readings, 0, ended) && taken != []
    ensures !ended ==> taken[|taken| - 1] == if last then AfterLast else AfterRange
  {
    BeginRange(moments, readings);
    taken := moments + [BeforeRange];
    if StopsBeforeRange(readings(tick)) { return before, true, tick + 1, taken; }
    stored, ended, next := StoreRange(upstream, span, batchSize, before, readings, tick + 1);
    BatchesRead(taken, readings, next - (tick + 1), ended);
    taken := taken + Batches(next - (tick + 1));
    if ended { return; }
    LeaveRange(taken, readings, if last then AfterLast else AfterRange);
    taken := taken + [if last then AfterLast else AfterRange];
    ended := StopsAfterRange(readings(next)) && !last;
    next := next + 1;
  }

  /** The readings after `n` of `total` ranges, none of which ended the target. */
  ghost predicate Underway(moments: seq<Moment>, readings: nat -> JobStatus, n: nat, total: nat) {
    && Walk(moments) && Read(moments, readings, 0, false) && (n == 0 ==> moments == [])
    && (n > 0 ==> moments != [] && moments[|moments| - 1] == if n == total then AfterLast else AfterRange)
  }

  lemma UnderwayGoesOn(moments: seq<Moment>, readings: nat -> JobStatus, n: nat, total: nat)
    requires Underway(moments, readings, n, total) && n < total
    ensures MayGoOn(moments, readings)
  {}

  /** A target is reported succeeded exactly when no reading of the job's status, at the moments at which it is read,
      was one that ends it there; the first that is ends it. Succeeded, every upstream candle of the job's range is
      stored, and only upstream candles are ever added. When no minute is missing, nothing is read. */
  method BackfillTarget(upstream: set<int>, before: set<int>, start: int, end: int, batchSize: nat,
                        readings: nat -> JobStatus)
    returns (succeeded: bool, stored: set<int>, ghost moments: seq<Moment>)
    requires batchSize >= 1 && Aligned(upstream) && Aligned(before)
    ensures Gained(before, stored, upstream, start, end)
    ensures succeeded ==> Between(upstream, start, end) <= stored
    ensures Walk(moments) && Read(moments, readings, 0, !succeeded)
    ensures succeeded && moments != [] ==> moments[|moments| - 1] == AfterLast
    ensures (forall t :: Sample(start, t) && t < end ==> t in before) ==> succeeded && moments == [] && stored == before
    ensures (forall i: nat :: readings(i) == Ongoing) ==> succeeded
  {
    var ranges := MissingSourceCandleRanges(Between(before, start, end), start, end);
    stored, moments := before, [];
    if ranges == [] {
      RangesComplete(upstream, before, stored, start, end, ranges);
      return true, stored, moments;
    }
    SomeMissing(before, start, end, ranges);
    var tick, n := 0, 0;
    while n < |ranges|
      invariant 0 <= n <= |ranges| && Gained(before, stored, upstream, start, end)
      invariant Fetched(upstream, ranges, n, stored)
      invariant |moments| == tick && Underway(moments, readings, n, |ranges|)
    {
      assert Maximal(Between(before, start, end), start, end, ranges[n]);
      ghost var was := stored;
      var ended;
      UnderwayGoesOn(moments, readings, n, |ranges|);
      stored, ended, tick, moments := FillRange(upstream, ranges[n], n == |ranges| - 1, batchSize, stored, readings,
                                                moments, tick);
      GainedTrans(before, was, stored, upstream, start, end, ranges[n]);
      if ended {
        OngoingGoesOn(moments, readings);
        return false, stored, moments;
      }
      FetchedNext(upstream, ranges, n, was, stored);
      n := n + 1;
    }
    RangesComplete(upstream, before, stored, start, end, ranges);
    succeeded := true;
  }
}
