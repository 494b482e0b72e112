/** What catalog observations write into the coverage of a market's target specs
    (`_transition_market_availability_coverage`), and what a whole run of them leaves behind. */
module MarketAvailability {
  import opened Ordering
  import opened Calendar
  import opened Coverage

  /** A catalog observation of one market: it trades, or it does not and for this reason. */
  datatype Observation = Trading(at: Time) | NotTrading(at: Time, missing: bool)

  /** 9999-01-01T00:00Z, the end of an interval that is still open. */
  const OPEN_END: Time := 3_651_694 * DAY

  lemma OpenEndIsNewYear9999()
    ensures OPEN_END == YearStart(9999) * DAY
  {
    GregorianYearStart(9998);
  }

  /** The evidence a coverage classification is drawn from. */
  datatype Evidence = Evidence(beforeListing: bool, afterTradingEnd: bool, outsideRetention: bool, rowCount: int,
                               manifest: bool, succeeded: bool, noTradeCorroborated: bool, attempted: bool,
                               retryExhausted: bool, tradingResumed: bool)

  const NO_EVIDENCE := Evidence(false, false, false, 0, false, false, false, false, false, false)

  /** `classify_coverage`. */
  function Classify(e: Evidence): Status {
    if e.beforeListing || e.outsideRetention || (e.afterTradingEnd && !e.tradingResumed) then Unavailable
    else if e.rowCount > 0 && e.manifest then Available
    else if e.succeeded && e.noTradeCorroborated then NoTrade
    else if e.attempted && e.retryExhausted then Missing
    else Unverified
  }

  function UnavailableReason(o: Observation): Reason
    requires o.NotTrading?
  {
    if o.missing then CatalogMissing else MarketInactive
  }

  /** The cell an observation writes; its status is the classification of its evidence. */
  function CellOf(o: Observation): Cell {
    match o
    case Trading(at) => Cell(Classify(NO_EVIDENCE.(tradingResumed := true)), TradingResumed, None, at)
    case NotTrading(at, _) =>
      Cell(Classify(NO_EVIDENCE.(afterTradingEnd := true)), UnavailableReason(o), None, at)
  }

  /** An interval that a catalog observation, and nothing else, made unavailable. */
  predicate ByCatalog(c: Cell) {
    c.status == Unavailable && c.reason in {CatalogMissing, MarketInactive}
  }

  /** One observation at one instant: not trading takes over everything from its time to the open end;
      trading takes back what the catalog took, from its time on. */
  function Step(c: Option<Cell>, o: Observation, t: Time): Option<Cell> {
    match o
    case NotTrading(at, _) => if at <= t < OPEN_END then Some(CellOf(o)) else c
    case Trading(at) => if at <= t && c.Some? && ByCatalog(c.value) then Some(CellOf(o)) else c
  }

  ghost predicate Stepped(before: set<Row>, after: set<Row>, specs: set<int>, o: Observation) {
    forall s, t :: CellAt(after, s, t) == if s in specs then Step(CellAt(before, s, t), o, t) else CellAt(before, s, t)
  }

  /** The catalog-unavailable rows of a spec that reach beyond `at`, in start order. */
  method SelectUnavailable(rows: set<Row>, spec: int, at: Time) returns (found: seq<Row>)
    requires Consistent(rows)
    ensures forall r :: r in found <==> r in rows && r.spec == spec && ByCatalog(r.cell) && at < r.end
  {
    found := [];
    var rest := set r | r in rows && r.spec == spec && ByCatalog(r.cell) && at < r.end;
    ghost var all := rest;
    while rest != {}
      invariant rest <= all
      invariant forall r :: r in all <==> r in found || r in rest
      decreases |rest|
    {
      FirstExists(rest);
      var first :| first in rest && forall r :: r in rest ==> first.start <= r.start;
      found, rest := found + [first], rest - {first};
    }
  }

  /** Some row among the first `k` holds the instant, at or after `at`. */
  ghost predicate Reclaimed(found: seq<Row>, k: nat, at: Time, t: Time)
    requires k <= |found|
  {
    exists i :: 0 <= i < k && at <= t && found[i].start <= t < found[i].end
  }

  lemma ReclaimedNext(found: seq<Row>, k: nat, at: Time, t: Time)
    requires k < |found|
    ensures Reclaimed(found, k + 1, at, t) <==>
      Reclaimed(found, k, at, t) || In(t, MaxT(at, found[k].start), found[k].end)
  {}

  lemma ReclaimedAll(rows: set<Row>, found: seq<Row>, spec: int, at: Time, t: Time)
    requires Consistent(rows)
    requires forall r :: r in found <==> r in rows && r.spec == spec && ByCatalog(r.cell) && at < r.end
    ensures Reclaimed(found, |found|, at, t) <==>
              at <= t && CellAt(rows, spec, t).Some? && ByCatalog(CellAt(rows, spec, t).value)
  {
    if Reclaimed(found, |found|, at, t) {
      var i :| 0 <= i < |found| && at <= t && found[i].start <= t < found[i].end;
      assert found[i] in found && Holds(found[i], spec, t);
      CellAtRow(rows, spec, t, found[i]);
    }
    if at <= t && Covered(rows, spec, t) {
      var r :| r in rows && Holds(r, spec, t);
      assert Holds(r, spec, t);
      CellAtRow(rows, spec, t, r);
      if ByCatalog(r.cell) {
        var i :| 0 <= i < |found| && found[i] == r;
        assert found[i].start <= t < found[i].end;
      }
    }
  }

  /** Trading again: each interval the catalog made unavailable becomes unverified from `at` on. */
  method Resume(table: CoverageTable, spec: int, at: Time)
    requires table.Valid() && spec in table.markets
    modifies table`rows
    ensures table.Valid()
    ensures Stepped(old(table.rows), table.rows, {spec}, Trading(at))
  {
    ghost var before := table.rows;
    var found := SelectUnavailable(table.rows, spec, at);
    for k := 0 to |found|
      invariant table.Valid()
      invariant forall s, t :: CellAt(table.rows, s, t) ==
                  (if s == spec && Reclaimed(found, k, at, t) then Some(CellOf(Trading(at))) else CellAt(before, s, t))
    {
      var lo := MaxT(at, found[k].start);
      ghost var mid := table.rows;
      assert found[k] in found && found[k].start < found[k].end;
      var _ := table.Replace(spec, lo, found[k].end, CellOf(Trading(at)));
      forall s, t ensures CellAt(table.rows, s, t) ==
        if s == spec && Reclaimed(found, k + 1, at, t) then Some(CellOf(Trading(at))) else CellAt(before, s, t)
      {
        ReclaimedNext(found, k, at, t);
        assert CellAt(table.rows, s, t) == Overwritten(mid, spec, lo, found[k].end, CellOf(Trading(at)), s, t);
      }
    }
    forall s, t ensures CellAt(table.rows, s, t) ==
      if s in {spec} then Step(CellAt(before, s, t), Trading(at), t) else CellAt(before, s, t)
    {
      ReclaimedAll(before, found, spec, at, t);
    }
  }

  /** Not trading: one overwrite from the observation to the open end. */
  method Withdraw(table: CoverageTable, spec: int, o: Observation)
    requires table.Valid() && spec in table.markets && o.NotTrading?
    modifies table`rows
    ensures table.Valid()
    ensures Stepped(old(table.rows), table.rows, {spec}, o)
  {
    ghost var before := table.rows;
    var _ := table.Replace(spec, o.at, OPEN_END, CellOf(o));
    forall s, t ensures CellAt(table.rows, s, t) ==
      if s in {spec} then Step(CellAt(before, s, t), o, t) else CellAt(before, s, t)
    {
      if o.at < OPEN_END {
        assert CellAt(table.rows, s, t) == Overwritten(before, spec, o.at, OPEN_END, CellOf(o), s, t);
      }
    }
  }

  function SpecsOf(markets: map<int, int>, market: int): set<int> {
    set s | s in markets && markets[s] == market
  }

  /** `_transition_market_availability_coverage`: apply one observation to every spec of the market. */
  method Observe(table: CoverageTable, market: int, o: Observation)
    requires table.Valid()
    modifies table`rows
    ensures table.Valid()
    ensures Stepped(old(table.rows), table.rows, SpecsOf(table.markets, market), o)
  {
    ghost var before := table.rows;
    var todo := SpecsOf(table.markets, market);
    ghost var all := todo;
    while todo != {}
      invariant todo <= all
      invariant table.Valid()
      invariant Stepped(before, table.rows, all - todo, o)
      decreases todo
    {
      var spec := Least(todo);
      ghost var mid := table.rows;
      match o {
        case NotTrading(_, _) => Withdraw(table, spec, o);
        case Trading(at) => Resume(table, spec, at);
      }
      SteppedJoin(before, mid, table.rows, all - todo, spec, o);
      assert (all - todo) + {spec} == all - (todo - {spec});
      todo := todo - {spec};
    }
    assert all - todo == all;
  }

  lemma SteppedJoin(before: set<Row>, mid: set<Row>, after: set<Row>, done: set<int>, spec: int, o: Observation)
    requires Stepped(before, mid, done, o) && Stepped(mid, after, {spec}, o) && spec !in done
    ensures Stepped(before, after, done + {spec}, o)
  {
    forall s, t ensures CellAt(after, s, t) ==
      if s in done + {spec} then Step(CellAt(before, s, t), o, t) else CellAt(before, s, t)
    {
      assert CellAt(mid, s, t) == if s in done then Step(CellAt(before, s, t), o, t) else CellAt(before, s, t);
    }
  }

  // ---------------------------------------------------------------- whole runs

  /** A run of the table under observations of one market and no other writer. */
  ghost predicate Run(tables: seq<set<Row>>, specs: set<int>, os: seq<Observation>) {
    && |tables| == |os| + 1
    && forall i :: 0 <= i < |os| ==> Stepped(tables[i], tables[i + 1], specs, os[i])
  }

  predicate NonDecreasing(os: seq<Observation>) {
    forall i, j :: 0 <= i < j < |os| ==> os[i].at <= os[j].at
  }

  /** The last observation at or before `t`, by position; none if the first one is later. */
  function LatestAt(os: seq<Observation>, t: Time): Option<Observation> {
    if os == [] then None
    else if os[|os| - 1].at <= t then Some(os[|os| - 1])
    else LatestAt(os[..|os| - 1], t)
  }

  /** In a run whose observation times never decrease, the last by position is also the last by time. */
  lemma {:induction false} LatestIsLatest(os: seq<Observation>, t: Time, i: nat)
    requires NonDecreasing(os) && i < |os| && os[i].at <= t
    ensures LatestAt(os, t).Some? && os[i].at <= LatestAt(os, t).value.at <= t
  {
    var n := |os|;
    if os[n - 1].at > t {
      assert os[..n - 1][i] == os[i];
      LatestIsLatest(os[..n - 1], t, i);
    }
  }

  /** Some observation at or before `t` found the market not trading. */
  ghost predicate WithdrawnBy(os: seq<Observation>, t: Time) {
    exists i :: 0 <= i < |os| && os[i].NotTrading? && os[i].at <= t
  }

  lemma WithdrawnByLast(os: seq<Observation>, t: Time)
    requires os != []
    ensures WithdrawnBy(os, t) <==>
      WithdrawnBy(os[..|os| - 1], t) || (os[|os| - 1].NotTrading? && os[|os| - 1].at <= t)
  {
    var front := os[..|os| - 1];
    if WithdrawnBy(os, t) && !(os[|os| - 1].NotTrading? && os[|os| - 1].at <= t) {
      var i :| 0 <= i < |os| && os[i].NotTrading? && os[i].at <= t;
      assert front[i] == os[i];
    }
    if WithdrawnBy(front, t) {
      var i :| 0 <= i < |front| && front[i].NotTrading? && front[i].at <= t;
      assert os[i] == front[i];
    }
  }

  /** A catalog observation, and nothing else, made the instant unavailable before the run. */
  predicate WasWithdrawn(initial: Option<Cell>) {
    initial.Some? && initial.value.status == Unavailable
    && (initial.value.reason == CatalogMissing || initial.value.reason == MarketInactive)
  }

  /** The reading of an instant after a run, in closed form. */
  ghost predicate Settled(initial: Option<Cell>, os: seq<Observation>, t: Time, now: Option<Cell>) {
    if WithdrawnBy(os, t) || (WasWithdrawn(initial) && LatestAt(os, t).Some?) then
      && LatestAt(os, t).Some? && now.Some?
      && (if LatestAt(os, t).value.NotTrading?
          then now.value == Cell(Unavailable, if LatestAt(os, t).value.missing then CatalogMissing else MarketInactive,
                                 None, LatestAt(os, t).value.at)
          else now.value.status == Unverified && now.value.reason == TradingResumed)
    else now == initial
  }

  /** Availability over whole runs. Once an observation at or before it has found the market not trading - or any has
      been made, if the catalog had withdrawn it before the run -, an instant before the open end reads unavailable
      exactly when the latest observation at or before it was not trading, and unverified otherwise. Until then, and
      for every other spec, it reads as it did. */
  lemma {:induction false} AvailabilityOverRuns(tables: seq<set<Row>>, specs: set<int>, os: seq<Observation>, s: int,
                                                t: Time)
    requires Run(tables, specs, os) && t < OPEN_END
    ensures s in specs ==> Settled(CellAt(tables[0], s, t), os, t, CellAt(tables[|os|], s, t))
    ensures s !in specs ==> CellAt(tables[|os|], s, t) == CellAt(tables[0], s, t)
  {
    var n := |os|;
    if n > 0 {
      var front := os[..n - 1];
      AvailabilityOverRuns(tables[..n], specs, front, s, t);
      assert Stepped(tables[n - 1], tables[n], specs, os[n - 1]);
      WithdrawnByLast(os, t);
      if s in specs {
        assert CellAt(tables[n], s, t) == Step(CellAt(tables[n - 1], s, t), os[n - 1], t);
        SettledNext(CellAt(tables[0], s, t), os, t, CellAt(tables[n - 1], s, t));
      }
    }
  }

  lemma SettledNext(initial: Option<Cell>, os: seq<Observation>, t: Time, c: Option<Cell>)
    requires os != [] && t < OPEN_END && Settled(initial, os[..|os| - 1], t, c)
    ensures Settled(initial, os, t, Step(c, os[|os| - 1], t))
  {
    WithdrawnByLast(os, t);
  }
}
