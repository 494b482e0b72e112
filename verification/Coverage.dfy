/** The table of half-open coverage intervals and the exact overwrite of one range
    (`replace_coverage_with_classification`). */
module Coverage {
  import opened Ordering
  import opened Calendar

  datatype Status = Available | NoTrade | Missing | Unavailable | Unverified

  /** Reason codes a classification carries in its evidence. */
  datatype Reason = CatalogMissing | MarketInactive | TradingResumed | OtherEvidence(text: string)

  /** What an interval says about each of its instants. */
  datatype Cell = Cell(status: Status, reason: Reason, manifest: Option<int>, assessedAt: Time)

  datatype Row = Row(spec: int, start: Time, end: Time, cell: Cell)

  /** A recorded change: the instants of [start, end) held `previous` before (None for a gap). */
  datatype Transition = Transition(previous: Option<Status>, start: Time, end: Time)

  predicate Holds(r: Row, spec: int, t: Time) {
    r.spec == spec && r.start <= t < r.end
  }

  predicate Overlaps(a: Row, b: Row) {
    a.spec == b.spec && a.start < b.end && b.start < a.end
  }

  /** The table's constraints: ranges are not empty, and those of one spec exclude each other. */
  ghost predicate Consistent(rows: set<Row>) {
    && (forall r :: r in rows ==> r.start < r.end)
    && (forall a, b :: a in rows && b in rows && Overlaps(a, b) ==> a == b)
  }

  ghost predicate Covered(rows: set<Row>, spec: int, t: Time) {
    exists r :: r in rows && Holds(r, spec, t)
  }

  /** The pointwise reading of the table. */
  ghost function CellAt(rows: set<Row>, spec: int, t: Time): Option<Cell> {
    if Covered(rows, spec, t) then
      var r :| r in rows && Holds(r, spec, t);
      Some(r.cell)
    else None
  }

  ghost function StatusAt(rows: set<Row>, spec: int, t: Time): Option<Status> {
    match CellAt(rows, spec, t)
    case None => None
    case Some(c) => Some(c.status)
  }

  lemma CellAtRow(rows: set<Row>, spec: int, t: Time, r: Row)
    requires Consistent(rows) && r in rows && Holds(r, spec, t)
    ensures CellAt(rows, spec, t) == Some(r.cell)
  {
    var q :| q in rows && Holds(q, spec, t) && CellAt(rows, spec, t) == Some(q.cell);
    assert Holds(q, spec, t) && Holds(r, spec, t);
    assert Overlaps(q, r);
  }

  predicate In(t: Time, lo: Time, hi: Time) { lo <= t < hi }

  /** What the reading becomes when [lo, hi) of `spec` is overwritten by `cell`. */
  ghost function Overwritten(rows: set<Row>, spec: int, lo: Time, hi: Time, cell: Cell, s: int, t: Time): Option<Cell> {
    if s == spec && In(t, lo, hi) then Some(cell) else CellAt(rows, s, t)
  }

  predicate Disjoint(ts: seq<Transition>) {
    forall i, j :: 0 <= i < j < |ts| ==> ts[i].end <= ts[j].start || ts[j].end <= ts[i].start
  }

  predicate Within(ts: seq<Transition>, lo: Time, hi: Time) {
    forall i :: 0 <= i < |ts| ==> lo <= ts[i].start < ts[i].end <= hi
  }

  predicate Touches(ts: seq<Transition>, t: Time) {
    exists i :: 0 <= i < |ts| && In(t, ts[i].start, ts[i].end)
  }

  /** The transitions are the exact change: disjoint ranges inside [lo, hi) that hold precisely the
      instants whose status differs from the new one, each with the status it had. */
  ghost predicate ExactTransitions(rows: set<Row>, spec: int, lo: Time, hi: Time, status: Status, ts: seq<Transition>) {
    Within(ts, lo, hi) && Disjoint(ts) && PreviousTold(rows, spec, status, ts)
    && ChangesTold(rows, spec, lo, hi, status, ts)
  }

  /** Each range carries the status its instants had, and that status changes. */
  ghost predicate PreviousTold(rows: set<Row>, spec: int, status: Status, ts: seq<Transition>) {
    forall i, t :: 0 <= i < |ts| && In(t, ts[i].start, ts[i].end) ==>
      ts[i].previous == StatusAt(rows, spec, t) && ts[i].previous != Some(status)
  }

  /** Each instant whose status changes is in a range. */
  ghost predicate ChangesTold(rows: set<Row>, spec: int, lo: Time, hi: Time, status: Status, ts: seq<Transition>) {
    forall t :: In(t, lo, hi) && StatusAt(rows, spec, t) != Some(status) ==> Touches(ts, t)
  }

  function MaxT(a: Time, b: Time): Time { if a < b then b else a }
  function MinT(a: Time, b: Time): Time { if a < b then a else b }

  /** The overlapping rows, as the query returns them: ordered by start. */
  predicate SortedByStart(s: seq<Row>) {
    forall i, j :: 0 <= i < j < |s| ==> s[i].end <= s[j].start
  }

  method SelectOverlaps(rows: set<Row>, spec: int, lo: Time, hi: Time) returns (overlaps: seq<Row>)
    requires Consistent(rows) && lo < hi
    ensures FoundIn(rows, overlaps, spec, lo, hi)
  {
    overlaps := [];
    var rest := set r | r in rows && Hit(r, spec, lo, hi);
    ghost var all := rest;
    while rest != {}
      invariant rest <= all
      invariant forall r :: r in all <==> r in overlaps || r in rest
      invariant SortedByStart(overlaps)
      invariant forall r, q :: r in overlaps && q in rest ==> r.end <= q.start
      decreases |rest|
    {
      FirstExists(rest);
      var first :| first in rest && forall r :: r in rest ==> first.start <= r.start;
      forall q | q in rest - {first} ensures first.end <= q.start {
        assert !Overlaps(first, q);
      }
      overlaps, rest := overlaps + [first], rest - {first};
    }
  }

  lemma {:induction false} FirstExists(rows: set<Row>)
    requires rows != {}
    ensures exists f :: f in rows && forall r :: r in rows ==> f.start <= r.start
    decreases |rows|
  {
    assert (forall r :: r !in rows) ==> rows == {};
    var f :| f in rows;
    var rest := rows - {f};
    if rest == {} {
      assert rows == {f};
    } else {
      FirstExists(rest);
      var g :| g in rest && forall r :: r in rest ==> g.start <= r.start;
      var h := if f.start <= g.start then f else g;
      assert h in rows && forall r :: r in rows ==> h.start <= r.start by { assert rows == rest + {f}; }
    }
  }

  // ---------------------------------------------------------------- splitting

  predicate Hit(r: Row, spec: int, lo: Time, hi: Time) {
    r.spec == spec && r.start < hi && lo < r.end
  }

  /** `x` is what is left of `o` on one side of [lo, hi). */
  predicate PieceOf(x: Row, o: Row, lo: Time, hi: Time) {
    || (o.start < lo && x == o.(end := lo))
    || (hi < o.end && x == o.(start := hi))
  }

  /** The rows that remain once [lo, hi) of `spec` is cut out: rows outside it, and the parts of
      overlapping rows that stick out on either side. */
  ghost predicate Carved(rows: set<Row>, spec: int, lo: Time, hi: Time, rest: set<Row>) {
    forall x :: x in rest <==>
      || (x in rows && !Hit(x, spec, lo, hi))
      || (exists o :: o in rows && Hit(o, spec, lo, hi) && PieceOf(x, o, lo, hi))
  }

  /** A remaining row is a part of one row of the table, clear of the cut. */
  lemma CarvedOrigin(rows: set<Row>, spec: int, lo: Time, hi: Time, rest: set<Row>, a: Row) returns (r: Row)
    requires Consistent(rows) && lo < hi && Carved(rows, spec, lo, hi, rest) && a in rest
    ensures r in rows && r.spec == a.spec && r.cell == a.cell && r.start <= a.start < a.end <= r.end
    ensures a.spec == spec ==> a.end <= lo || hi <= a.start
    ensures a == r || (Hit(r, spec, lo, hi) && PieceOf(a, r, lo, hi))
  {
    if a in rows && !Hit(a, spec, lo, hi) {
      r := a;
    } else {
      r :| r in rows && Hit(r, spec, lo, hi) && PieceOf(a, r, lo, hi);
    }
  }

  lemma CarvedConsistent(rows: set<Row>, spec: int, lo: Time, hi: Time, rest: set<Row>, cell: Cell)
    requires Consistent(rows) && lo < hi && Carved(rows, spec, lo, hi, rest)
    ensures Consistent(rest + {Row(spec, lo, hi, cell)})
  {
    var added := Row(spec, lo, hi, cell);
    forall a | a in rest ensures a.start < a.end && !Overlaps(a, added) && !Overlaps(added, a) {
      var _ := CarvedOrigin(rows, spec, lo, hi, rest, a);
    }
    forall a, b | a in rest && b in rest && Overlaps(a, b) ensures a == b {
      var p := CarvedOrigin(rows, spec, lo, hi, rest, a);
      var q := CarvedOrigin(rows, spec, lo, hi, rest, b);
      assert Overlaps(p, q);
    }
  }

  /** Cutting and inserting reads the new cell inside the range and the old cell everywhere else. */
  lemma CarvedReads(rows: set<Row>, spec: int, lo: Time, hi: Time, rest: set<Row>, cell: Cell, s: int, t: Time)
    requires Consistent(rows) && lo < hi && Carved(rows, spec, lo, hi, rest)
    ensures CellAt(rest + {Row(spec, lo, hi, cell)}, s, t) == Overwritten(rows, spec, lo, hi, cell, s, t)
  {
    var added := Row(spec, lo, hi, cell);
    var after := rest + {added};
    CarvedConsistent(rows, spec, lo, hi, rest, cell);
    if s == spec && In(t, lo, hi) {
      CellAtRow(after, s, t, added);
    } else if Covered(rows, s, t) {
      var r :| r in rows && Holds(r, s, t);
      CellAtRow(rows, s, t, r);
      var part := if !Hit(r, spec, lo, hi) then r else if t < lo then r.(end := lo) else r.(start := hi);
      assert Hit(r, spec, lo, hi) ==> PieceOf(part, r, lo, hi);
      assert part in after && Holds(part, s, t);
      CellAtRow(after, s, t, part);
    } else if Covered(after, s, t) {
      var a :| a in after && Holds(a, s, t);
      var r := CarvedOrigin(rows, spec, lo, hi, rest, a);
      assert Holds(r, s, t);
    }
  }

  // ---------------------------------------------------------------- transitions

  /** The clipped range an overlapping row covers. */
  function Clip(r: Row, lo: Time, hi: Time): (Time, Time) { (MaxT(r.start, lo), MinT(r.end, hi)) }

  function Recorded(r: Row, lo: Time, hi: Time): Transition {
    Transition(Some(r.cell.status), MaxT(r.start, lo), MinT(r.end, hi))
  }

  /** The transitions noted in the first `k` passes of the overlap loop. */
  function OverlapTransitions(overlaps: seq<Row>, k: nat, lo: Time, hi: Time, status: Status): seq<Transition>
    requires k <= |overlaps|
  {
    if k == 0 then [] else
      OverlapTransitions(overlaps, k - 1, lo, hi, status)
      + (if overlaps[k - 1].cell.status != status then [Recorded(overlaps[k - 1], lo, hi)] else [])
  }

  lemma {:induction false} RecordedFrom(overlaps: seq<Row>, k: nat, lo: Time, hi: Time, status: Status, x: Transition)
    returns (i: nat)
    requires k <= |overlaps| && x in OverlapTransitions(overlaps, k, lo, hi, status)
    ensures i < k && overlaps[i].cell.status != status && x == Recorded(overlaps[i], lo, hi)
  {
    if overlaps[k - 1].cell.status != status && x == Recorded(overlaps[k - 1], lo, hi) {
      i := k - 1;
    } else {
      i := RecordedFrom(overlaps, k - 1, lo, hi, status, x);
    }
  }

  lemma {:induction false} RecordedIn(overlaps: seq<Row>, k: nat, lo: Time, hi: Time, status: Status, i: nat)
    requires i < k <= |overlaps| && overlaps[i].cell.status != status
    ensures Recorded(overlaps[i], lo, hi) in OverlapTransitions(overlaps, k, lo, hi, status)
  {
    if i != k - 1 { RecordedIn(overlaps, k - 1, lo, hi, status, i); }
  }

  function GapTransitions(cursor: Time, covered: seq<(Time, Time)>, hi: Time): seq<Transition>
    decreases |covered|
  {
    if covered == [] then (if cursor < hi then [Transition(None, cursor, hi)] else [])
    else
      (if cursor < covered[0].0 then [Transition(None, cursor, covered[0].0)] else [])
      + GapTransitions(MaxT(cursor, covered[0].1), covered[1..], hi)
  }

  predicate Ordered(ts: seq<Transition>) {
    forall i, j :: 0 <= i < j < |ts| ==> ts[i].end <= ts[j].start
  }

  lemma TouchesConcat(a: seq<Transition>, b: seq<Transition>, t: Time)
    ensures Touches(a + b, t) <==> Touches(a, t) || Touches(b, t)
  {
    if Touches(a, t) {
      var i :| 0 <= i < |a| && In(t, a[i].start, a[i].end);
      assert (a + b)[i] == a[i];
    }
    if Touches(b, t) {
      var i :| 0 <= i < |b| && In(t, b[i].start, b[i].end);
      assert (a + b)[|a| + i] == b[i];
    }
  }

  predicate InSome(covered: seq<(Time, Time)>, t: Time) {
    exists i :: 0 <= i < |covered| && In(t, covered[i].0, covered[i].1)
  }

  predicate Ranges(covered: seq<(Time, Time)>, lo: Time, hi: Time) {
    && (forall i :: 0 <= i < |covered| ==> lo <= covered[i].0 < covered[i].1 <= hi)
    && (forall i, j :: 0 <= i < j < |covered| ==> covered[i].1 <= covered[j].0)
  }

  lemma InSomeFirst(covered: seq<(Time, Time)>, t: Time)
    requires covered != []
    ensures InSome(covered, t) <==> In(t, covered[0].0, covered[0].1) || InSome(covered[1..], t)
  {
    if InSome(covered[1..], t) {
      var i :| 0 <= i < |covered[1..]| && In(t, covered[1..][i].0, covered[1..][i].1);
      assert covered[i + 1] == covered[1..][i];
    }
    if InSome(covered, t) && !In(t, covered[0].0, covered[0].1) {
      var i :| 0 <= i < |covered| && In(t, covered[i].0, covered[i].1);
      assert covered[1..][i - 1] == covered[i];
    }
  }

  /** The gap loop yields ordered ranges inside the overwritten one, all without a previous status. */
  lemma {:induction false} GapsOrdered(cursor: Time, covered: seq<(Time, Time)>, hi: Time)
    requires cursor <= hi && Ranges(covered, cursor, hi)
    ensures Ordered(GapTransitions(cursor, covered, hi)) && Within(GapTransitions(cursor, covered, hi), cursor, hi)
    ensures forall x :: x in GapTransitions(cursor, covered, hi) ==> x.previous == None
    decreases |covered|
  {
    if covered != [] {
      GapsOrdered(covered[0].1, covered[1..], hi);
    }
  }

  /** The gap loop finds exactly the uncovered instants. */
  lemma {:induction false} GapsExact(cursor: Time, covered: seq<(Time, Time)>, hi: Time, t: Time)
    requires cursor <= hi && Ranges(covered, cursor, hi) && In(t, cursor, hi)
    ensures Touches(GapTransitions(cursor, covered, hi), t) <==> !InSome(covered, t)
    decreases |covered|
  {
    var ts := GapTransitions(cursor, covered, hi);
    if covered == [] {
      assert In(t, ts[0].start, ts[0].end);
    } else {
      var first, next := covered[0], covered[0].1;
      var head := if cursor < first.0 then [Transition(None, cursor, first.0)] else [];
      var tail := GapTransitions(next, covered[1..], hi);
      assert ts == head + tail;
      TouchesConcat(head, tail, t);
      InSomeFirst(covered, t);
      if t < next {
        GapsOrdered(next, covered[1..], hi);
        assert !Touches(tail, t) && !InSome(covered[1..], t);
        assert t < first.0 ==> In(t, head[0].start, head[0].end);
      } else {
        GapsExact(next, covered[1..], hi, t);
      }
    }
  }

  function Clips(overlaps: seq<Row>, lo: Time, hi: Time): (c: seq<(Time, Time)>)
    ensures |c| == |overlaps|
    ensures forall i :: 0 <= i < |c| ==> c[i] == Clip(overlaps[i], lo, hi)
  {
    if overlaps == [] then [] else [Clip(overlaps[0], lo, hi)] + Clips(overlaps[1..], lo, hi)
  }

  predicate HitsOnly(overlaps: seq<Row>, spec: int, lo: Time, hi: Time) {
    && SortedByStart(overlaps)
    && forall i :: 0 <= i < |overlaps| ==> Hit(overlaps[i], spec, lo, hi) && overlaps[i].start < overlaps[i].end
  }

  /** The overlap loop records its ranges in order, inside the overwritten range. */
  lemma {:induction false} OverlapsOrdered(overlaps: seq<Row>, k: nat, spec: int, lo: Time, hi: Time, status: Status)
    requires HitsOnly(overlaps, spec, lo, hi) && lo < hi && k <= |overlaps|
    ensures Ordered(OverlapTransitions(overlaps, k, lo, hi, status))
    ensures Within(OverlapTransitions(overlaps, k, lo, hi, status), lo, hi)
  {
    if k > 0 {
      OverlapsOrdered(overlaps, k - 1, spec, lo, hi, status);
      var front := OverlapTransitions(overlaps, k - 1, lo, hi, status);
      forall i | 0 <= i < |front| ensures front[i].end <= MaxT(overlaps[k - 1].start, lo) {
        assert front[i] in front;
        var j := RecordedFrom(overlaps, k - 1, lo, hi, status, front[i]);
      }
    }
  }

  /** The rows found by the overlap query. */
  ghost predicate FoundIn(rows: set<Row>, overlaps: seq<Row>, spec: int, lo: Time, hi: Time) {
    && HitsOnly(overlaps, spec, lo, hi)
    && forall r :: r in overlaps <==> r in rows && Hit(r, spec, lo, hi)
  }

  lemma ClipCovered(rows: set<Row>, overlaps: seq<Row>, spec: int, lo: Time, hi: Time, t: Time)
    requires lo < hi && In(t, lo, hi) && FoundIn(rows, overlaps, spec, lo, hi) && InSome(Clips(overlaps, lo, hi), t)
    ensures Covered(rows, spec, t)
  {
    var covered := Clips(overlaps, lo, hi);
    var i :| 0 <= i < |covered| && In(t, covered[i].0, covered[i].1);
    assert covered[i] == Clip(overlaps[i], lo, hi);
    assert overlaps[i] in overlaps && Holds(overlaps[i], spec, t);
  }

  lemma CoveredClipped(rows: set<Row>, overlaps: seq<Row>, spec: int, lo: Time, hi: Time, t: Time)
    requires lo < hi && In(t, lo, hi) && FoundIn(rows, overlaps, spec, lo, hi) && Covered(rows, spec, t)
    ensures InSome(Clips(overlaps, lo, hi), t)
  {
    var r :| r in rows && Holds(r, spec, t);
    assert Hit(r, spec, lo, hi);
    var i :| 0 <= i < |overlaps| && overlaps[i] == r;
    assert Clips(overlaps, lo, hi)[i] == Clip(r, lo, hi);
  }

  lemma ClipsCover(rows: set<Row>, overlaps: seq<Row>, spec: int, lo: Time, hi: Time, t: Time)
    requires lo < hi && In(t, lo, hi) && FoundIn(rows, overlaps, spec, lo, hi)
    ensures InSome(Clips(overlaps, lo, hi), t) <==> Covered(rows, spec, t)
  {
    if InSome(Clips(overlaps, lo, hi), t) { ClipCovered(rows, overlaps, spec, lo, hi, t); }
    if Covered(rows, spec, t) { CoveredClipped(rows, overlaps, spec, lo, hi, t); }
  }

  lemma ChangedRecorded(rows: set<Row>, overlaps: seq<Row>, spec: int, lo: Time, hi: Time, status: Status, t: Time)
    requires Consistent(rows) && lo < hi && In(t, lo, hi) && FoundIn(rows, overlaps, spec, lo, hi)
    requires Covered(rows, spec, t) && StatusAt(rows, spec, t) != Some(status)
    ensures Touches(OverlapTransitions(overlaps, |overlaps|, lo, hi, status), t)
  {
    var a := OverlapTransitions(overlaps, |overlaps|, lo, hi, status);
    var r :| r in rows && Holds(r, spec, t);
    assert Holds(r, spec, t) && Hit(r, spec, lo, hi);
    CellAtRow(rows, spec, t, r);
    var i :| 0 <= i < |overlaps| && overlaps[i] == r;
    RecordedIn(overlaps, |overlaps|, lo, hi, status, i);
    var k :| 0 <= k < |a| && a[k] == Recorded(r, lo, hi);
    assert In(t, a[k].start, a[k].end);
  }

  /** Each recorded range carries the status its instants had, and that status changes. */
  lemma PreviousExact(rows: set<Row>, overlaps: seq<Row>, spec: int, lo: Time, hi: Time, status: Status, x: Transition,
                      t: Time)
    requires Consistent(rows) && lo < hi && FoundIn(rows, overlaps, spec, lo, hi)
    requires x in OverlapTransitions(overlaps, |overlaps|, lo, hi, status) && In(t, x.start, x.end)
    ensures In(t, lo, hi) && x.previous == StatusAt(rows, spec, t) && x.previous != Some(status)
    ensures Covered(rows, spec, t)
  {
    var i := RecordedFrom(overlaps, |overlaps|, lo, hi, status, x);
    var r := overlaps[i];
    assert Holds(r, spec, t) && Covered(rows, spec, t);
    CellAtRow(rows, spec, t, r);
  }

  /** Each gap range holds only instants that nothing covered. */
  lemma GapExact(rows: set<Row>, overlaps: seq<Row>, spec: int, lo: Time, hi: Time, k: nat, t: Time)
    requires Consistent(rows) && lo < hi && FoundIn(rows, overlaps, spec, lo, hi)
    requires k < |GapTransitions(lo, Clips(overlaps, lo, hi), hi)|
    requires var x := GapTransitions(lo, Clips(overlaps, lo, hi), hi)[k]; In(t, x.start, x.end)
    ensures In(t, lo, hi) && !Covered(rows, spec, t)
    ensures GapTransitions(lo, Clips(overlaps, lo, hi), hi)[k].previous == None
  {
    var covered := Clips(overlaps, lo, hi);
    var b := GapTransitions(lo, covered, hi);
    assert Ranges(covered, lo, hi);
    GapsOrdered(lo, covered, hi);
    assert b[k] in b && Touches(b, t);
    GapsExact(lo, covered, hi, t);
    ClipsCover(rows, overlaps, spec, lo, hi, t);
  }

  /** Every instant of the range whose status changes is in some recorded range. */
  lemma ChangedTouched(rows: set<Row>, overlaps: seq<Row>, spec: int, lo: Time, hi: Time, status: Status, t: Time)
    requires Consistent(rows) && lo < hi && FoundIn(rows, overlaps, spec, lo, hi)
    requires In(t, lo, hi) && StatusAt(rows, spec, t) != Some(status)
    ensures Touches(Parts(overlaps, lo, hi, status), t)
  {
    var covered := Clips(overlaps, lo, hi);
    assert Ranges(covered, lo, hi);
    if Covered(rows, spec, t) {
      ChangedRecorded(rows, overlaps, spec, lo, hi, status, t);
    } else {
      ClipsCover(rows, overlaps, spec, lo, hi, t);
      GapsExact(lo, covered, hi, t);
    }
    TouchesConcat(OverlapTransitions(overlaps, |overlaps|, lo, hi, status), GapTransitions(lo, covered, hi), t);
  }

  /** What both loops record. */
  function Parts(overlaps: seq<Row>, lo: Time, hi: Time, status: Status): seq<Transition> {
    OverlapTransitions(overlaps, |overlaps|, lo, hi, status) + GapTransitions(lo, Clips(overlaps, lo, hi), hi)
  }

  lemma PartExact(rows: set<Row>, overlaps: seq<Row>, spec: int, lo: Time, hi: Time, status: Status, i: nat, t: Time)
    requires Consistent(rows) && lo < hi && FoundIn(rows, overlaps, spec, lo, hi)
    requires i < |Parts(overlaps, lo, hi, status)|
    requires In(t, Parts(overlaps, lo, hi, status)[i].start, Parts(overlaps, lo, hi, status)[i].end)
    ensures Parts(overlaps, lo, hi, status)[i].previous == StatusAt(rows, spec, t)
    ensures Parts(overlaps, lo, hi, status)[i].previous != Some(status)
  {
    var a := OverlapTransitions(overlaps, |overlaps|, lo, hi, status);
    if i < |a| {
      assert a[i] in a;
      PreviousExact(rows, overlaps, spec, lo, hi, status, a[i], t);
    } else {
      GapExact(rows, overlaps, spec, lo, hi, i - |a|, t);
    }
  }

  lemma PartsTellPrevious(rows: set<Row>, overlaps: seq<Row>, spec: int, lo: Time, hi: Time, status: Status)
    requires Consistent(rows) && lo < hi && FoundIn(rows, overlaps, spec, lo, hi)
    ensures PreviousTold(rows, spec, status, Parts(overlaps, lo, hi, status))
  {
    var ts := Parts(overlaps, lo, hi, status);
    forall i, t | 0 <= i < |ts| && In(t, ts[i].start, ts[i].end)
      ensures ts[i].previous == StatusAt(rows, spec, t) && ts[i].previous != Some(status)
    {
      PartExact(rows, overlaps, spec, lo, hi, status, i, t);
    }
  }

  lemma PartsTellChanges(rows: set<Row>, overlaps: seq<Row>, spec: int, lo: Time, hi: Time, status: Status)
    requires Consistent(rows) && lo < hi && FoundIn(rows, overlaps, spec, lo, hi)
    ensures ChangesTold(rows, spec, lo, hi, status, Parts(overlaps, lo, hi, status))
  {
    forall t | In(t, lo, hi) && StatusAt(rows, spec, t) != Some(status)
      ensures Touches(Parts(overlaps, lo, hi, status), t)
    {
      ChangedTouched(rows, overlaps, spec, lo, hi, status, t);
    }
  }

  /** Together the two loops yield the exact change of the overwrite. */
  lemma TransitionsExact(rows: set<Row>, overlaps: seq<Row>, spec: int, lo: Time, hi: Time, status: Status)
    requires Consistent(rows) && lo < hi && FoundIn(rows, overlaps, spec, lo, hi)
    ensures ExactTransitions(rows, spec, lo, hi, status, Parts(overlaps, lo, hi, status))
  {
    PartsTellPrevious(rows, overlaps, spec, lo, hi, status);
    PartsTellChanges(rows, overlaps, spec, lo, hi, status);
    PartsApart(rows, overlaps, spec, lo, hi, status);
  }

  lemma CrossApart(rows: set<Row>, overlaps: seq<Row>, spec: int, lo: Time, hi: Time, status: Status, x: Transition,
                   j: nat)
    requires Consistent(rows) && lo < hi && FoundIn(rows, overlaps, spec, lo, hi)
    requires x in OverlapTransitions(overlaps, |overlaps|, lo, hi, status) && x.start < x.end
    requires j < |GapTransitions(lo, Clips(overlaps, lo, hi), hi)|
    requires var y := GapTransitions(lo, Clips(overlaps, lo, hi), hi)[j]; y.start < y.end
    ensures var y := GapTransitions(lo, Clips(overlaps, lo, hi), hi)[j]; x.end <= y.start || y.end <= x.start
  {
    var y := GapTransitions(lo, Clips(overlaps, lo, hi), hi)[j];
    var t := MaxT(x.start, y.start);
    if In(t, x.start, x.end) && In(t, y.start, y.end) {
      PreviousExact(rows, overlaps, spec, lo, hi, status, x, t);
      GapExact(rows, overlaps, spec, lo, hi, j, t);
    }
  }

  /** No range of the one list meets a range of the other. */
  ghost predicate NeverMeet(a: seq<Transition>, b: seq<Transition>) {
    forall i, j :: 0 <= i < |a| && 0 <= j < |b| ==> a[i].end <= b[j].start || b[j].end <= a[i].start
  }

  lemma PartsNeverMeet(rows: set<Row>, overlaps: seq<Row>, spec: int, lo: Time, hi: Time, status: Status)
    requires Consistent(rows) && lo < hi && FoundIn(rows, overlaps, spec, lo, hi)
    requires Within(OverlapTransitions(overlaps, |overlaps|, lo, hi, status), lo, hi)
    requires Within(GapTransitions(lo, Clips(overlaps, lo, hi), hi), lo, hi)
    ensures NeverMeet(OverlapTransitions(overlaps, |overlaps|, lo, hi, status),
                      GapTransitions(lo, Clips(overlaps, lo, hi), hi))
  {
    var a := OverlapTransitions(overlaps, |overlaps|, lo, hi, status);
    var b := GapTransitions(lo, Clips(overlaps, lo, hi), hi);
    forall i, j | 0 <= i < |a| && 0 <= j < |b| ensures a[i].end <= b[j].start || b[j].end <= a[i].start {
      assert a[i] in a;
      CrossApart(rows, overlaps, spec, lo, hi, status, a[i], j);
    }
  }

  lemma ClipsRanges(overlaps: seq<Row>, spec: int, lo: Time, hi: Time)
    requires lo < hi && HitsOnly(overlaps, spec, lo, hi)
    ensures Ranges(Clips(overlaps, lo, hi), lo, hi)
  {}

  lemma PartsApart(rows: set<Row>, overlaps: seq<Row>, spec: int, lo: Time, hi: Time, status: Status)
    requires Consistent(rows) && lo < hi && FoundIn(rows, overlaps, spec, lo, hi)
    ensures Within(Parts(overlaps, lo, hi, status), lo, hi) && Disjoint(Parts(overlaps, lo, hi, status))
  {
    OverlapsOrdered(overlaps, |overlaps|, spec, lo, hi, status);
    ClipsRanges(overlaps, spec, lo, hi);
    GapsOrdered(lo, Clips(overlaps, lo, hi), hi);
    PartsNeverMeet(rows, overlaps, spec, lo, hi, status);
    ConcatDisjoint(OverlapTransitions(overlaps, |overlaps|, lo, hi, status),
                   GapTransitions(lo, Clips(overlaps, lo, hi), hi), lo, hi);
  }

  lemma ConcatDisjoint(a: seq<Transition>, b: seq<Transition>, lo: Time, hi: Time)
    requires Ordered(a) && Ordered(b) && NeverMeet(a, b) && Within(a, lo, hi) && Within(b, lo, hi)
    ensures Disjoint(a + b) && Within(a + b, lo, hi)
  {}

  // ---------------------------------------------------------------- the overwrite

  /** Bounds are never invented: those of the new rows were bounds before, or are the new range's. */
  ghost predicate BoundsFrom(before: set<Row>, after: set<Row>, lo: Time, hi: Time) {
    forall a :: a in after ==>
      && (a.start in {lo, hi} || exists r :: r in before && r.spec == a.spec && r.start == a.start)
      && (a.end in {lo, hi} || exists r :: r in before && r.spec == a.spec && r.end == a.end)
  }

  ghost predicate ReadsAs(before: set<Row>, after: set<Row>, spec: int, lo: Time, hi: Time, cell: Cell) {
    forall s, t :: CellAt(after, s, t) == Overwritten(before, spec, lo, hi, cell, s, t)
  }

  ghost predicate OthersKept(before: set<Row>, after: set<Row>, spec: int) {
    forall r: Row :: r.spec != spec ==> (r in after <==> r in before)
  }

  /** The whole effect of overwriting [lo, hi) of `spec` with `cell`. */
  ghost predicate Replaced(before: set<Row>, after: set<Row>, spec: int, lo: Time, hi: Time, cell: Cell,
                           ts: seq<Transition>) {
    && Consistent(after)
    && ReadsAs(before, after, spec, lo, hi, cell)
    && ExactTransitions(before, spec, lo, hi, cell.status, ts)
    && BoundsFrom(before, after, lo, hi)
    && OthersKept(before, after, spec)
  }

  lemma CarvedBounds(rows: set<Row>, spec: int, lo: Time, hi: Time, rest: set<Row>, cell: Cell)
    requires Consistent(rows) && lo < hi && Carved(rows, spec, lo, hi, rest)
    ensures BoundsFrom(rows, rest + {Row(spec, lo, hi, cell)}, lo, hi)
  {
    forall a | a in rest
      ensures a.start in {lo, hi} || exists r :: r in rows && r.spec == a.spec && r.start == a.start
      ensures a.end in {lo, hi} || exists r :: r in rows && r.spec == a.spec && r.end == a.end
    {
      var r := CarvedOrigin(rows, spec, lo, hi, rest, a);
    }
  }

  lemma CarvedReadsAs(rows: set<Row>, spec: int, lo: Time, hi: Time, rest: set<Row>, cell: Cell)
    requires Consistent(rows) && lo < hi && Carved(rows, spec, lo, hi, rest)
    ensures ReadsAs(rows, rest + {Row(spec, lo, hi, cell)}, spec, lo, hi, cell)
  {
    var after := rest + {Row(spec, lo, hi, cell)};
    forall s, t ensures CellAt(after, s, t) == Overwritten(rows, spec, lo, hi, cell, s, t) {
      CarvedReads(rows, spec, lo, hi, rest, cell, s, t);
    }
  }

  lemma CarvedKeepsOthers(rows: set<Row>, spec: int, lo: Time, hi: Time, rest: set<Row>, cell: Cell)
    requires Carved(rows, spec, lo, hi, rest)
    ensures OthersKept(rows, rest + {Row(spec, lo, hi, cell)}, spec)
  {}

  /** One overlapping row gives way to its parts outside the range. */
  function SplitOne(rows: set<Row>, o: Row, lo: Time, hi: Time): set<Row> {
    (rows - {o})
    + (if o.start < lo then {o.(end := lo)} else {})
    + (if hi < o.end then {o.(start := hi)} else {})
  }

  /** The table after the first `k` passes of the overlap loop. */
  function SplitFirst(rows: set<Row>, overlaps: seq<Row>, k: nat, lo: Time, hi: Time): set<Row>
    requires k <= |overlaps|
  {
    if k == 0 then rows else SplitOne(SplitFirst(rows, overlaps, k - 1, lo, hi), overlaps[k - 1], lo, hi)
  }

  lemma NotYetDone(overlaps: seq<Row>, k: nat)
    requires SortedByStart(overlaps) && k < |overlaps| && overlaps[k].start < overlaps[k].end
    ensures overlaps[k] !in overlaps[..k]
  {
    forall i | 0 <= i < k ensures overlaps[i] != overlaps[k] {
      assert overlaps[i].end <= overlaps[k].start;
    }
  }

  ghost predicate SplitSome(overlaps: seq<Row>, k: nat, lo: Time, hi: Time, x: Row)
    requires k <= |overlaps|
  {
    exists i :: 0 <= i < k && PieceOf(x, overlaps[i], lo, hi)
  }

  lemma {:induction false} SplitFirstIs(rows: set<Row>, overlaps: seq<Row>, k: nat, spec: int, lo: Time, hi: Time,
                                        x: Row)
    requires lo < hi && HitsOnly(overlaps, spec, lo, hi) && k <= |overlaps|
    ensures x in SplitFirst(rows, overlaps, k, lo, hi) <==>
              (x in rows && x !in overlaps[..k]) || SplitSome(overlaps, k, lo, hi, x)
  {
    if k > 0 {
      SplitFirstIs(rows, overlaps, k - 1, spec, lo, hi, x);
      var o := overlaps[k - 1];
      assert overlaps[..k] == overlaps[..k - 1] + [o];
      NotYetDone(overlaps, k - 1);
      assert SplitSome(overlaps, k, lo, hi, x) <==> SplitSome(overlaps, k - 1, lo, hi, x) || PieceOf(x, o, lo, hi);
      assert PieceOf(x, o, lo, hi) ==> !Hit(x, spec, lo, hi);
    }
  }

  lemma SplitAll(rows: set<Row>, overlaps: seq<Row>, spec: int, lo: Time, hi: Time)
    requires lo < hi && FoundIn(rows, overlaps, spec, lo, hi)
    ensures Carved(rows, spec, lo, hi, SplitFirst(rows, overlaps, |overlaps|, lo, hi))
  {
    var n := |overlaps|;
    forall x ensures x in SplitFirst(rows, overlaps, n, lo, hi) <==>
      || (x in rows && !Hit(x, spec, lo, hi))
      || (exists o :: o in rows && Hit(o, spec, lo, hi) && PieceOf(x, o, lo, hi))
    {
      SplitFirstIs(rows, overlaps, n, spec, lo, hi, x);
      assert overlaps[..n] == overlaps;
      if SplitSome(overlaps, n, lo, hi, x) {
        var i :| 0 <= i < n && PieceOf(x, overlaps[i], lo, hi);
        assert overlaps[i] in overlaps;
      }
      if o :| o in rows && Hit(o, spec, lo, hi) && PieceOf(x, o, lo, hi) {
        var i :| 0 <= i < n && overlaps[i] == o;
        assert PieceOf(x, overlaps[i], lo, hi);
      }
    }
  }

  /** The gap loop: append the parts of [lo, hi) that no covered range reaches. */
  method AppendGaps(transitions: seq<Transition>, covered: seq<(Time, Time)>, lo: Time, hi: Time)
    returns (all: seq<Transition>)
    ensures all == transitions + GapTransitions(lo, covered, hi)
  {
    all := transitions;
    var uncovered: Time := lo;
    for k := 0 to |covered|
      invariant all + GapTransitions(uncovered, covered[k..], hi) == transitions + GapTransitions(lo, covered, hi)
    {
      if uncovered < covered[k].0 {
        all := all + [Transition(None, uncovered, covered[k].0)];
      }
      uncovered := MaxT(uncovered, covered[k].1);
      assert covered[k..][1..] == covered[k + 1..];
    }
    if uncovered < hi {
      all := all + [Transition(None, uncovered, hi)];
    }
  }

  /** The `coverage_intervals` table, with the market each target spec belongs to. */
  class CoverageTable {
    var rows: set<Row>
    var markets: map<int, int>

    ghost predicate Valid()
      reads this
    {
      Consistent(rows)
    }

    /** Delete one overlapping row and put back the parts of it outside the range. */
    method SplitRow(overlap: Row, spec: int, lo: Time, hi: Time)
      requires lo < hi && Hit(overlap, spec, lo, hi)
      modifies this`rows
      ensures rows == SplitOne(old(rows), overlap, lo, hi)
    {
      rows := rows - {overlap};
      if overlap.start < MinT(overlap.end, lo) {
        rows := rows + {overlap.(end := MinT(overlap.end, lo))};
      }
      if MaxT(overlap.start, hi) < overlap.end {
        rows := rows + {overlap.(start := MaxT(overlap.start, hi))};
      }
    }

    /** The overlap loop: split each overlapping row and note what it covers and what changes. */
    method SplitOverlaps(overlaps: seq<Row>, spec: int, lo: Time, hi: Time, status: Status)
      returns (covered: seq<(Time, Time)>, transitions: seq<Transition>)
      requires lo < hi && HitsOnly(overlaps, spec, lo, hi)
      modifies this`rows
      ensures rows == SplitFirst(old(rows), overlaps, |overlaps|, lo, hi)
      ensures covered == Clips(overlaps, lo, hi)
      ensures transitions == OverlapTransitions(overlaps, |overlaps|, lo, hi, status)
    {
      covered, transitions := [], [];
      for k := 0 to |overlaps|
        invariant rows == SplitFirst(old(rows), overlaps, k, lo, hi)
        invariant |covered| == k && forall i :: 0 <= i < k ==> covered[i] == Clip(overlaps[i], lo, hi)
        invariant transitions == OverlapTransitions(overlaps, k, lo, hi, status)
      {
        var overlap := overlaps[k];
        var start, end := MaxT(overlap.start, lo), MinT(overlap.end, hi);
        if start < end {
          covered := covered + [(start, end)];
        }
        if overlap.cell.status != status && start < end {
          transitions := transitions + [Transition(Some(overlap.cell.status), start, end)];
        }
        SplitRow(overlap, spec, lo, hi);
      }
    }

    /** `replace_coverage_with_classification`: an empty range or an unknown spec changes nothing. */
    method Replace(spec: int, lo: Time, hi: Time, cell: Cell) returns (transitions: seq<Transition>)
      requires Valid()
      modifies this`rows
      ensures Valid()
      ensures lo < hi && spec in markets ==> Replaced(old(rows), rows, spec, lo, hi, cell, transitions)
      ensures !(lo < hi && spec in markets) ==> rows == old(rows) && transitions == []
    {
      transitions := [];
      if lo >= hi || spec !in markets { return; }
      var overlaps := SelectOverlaps(rows, spec, lo, hi);
      var covered;
      covered, transitions := SplitOverlaps(overlaps, spec, lo, hi, cell.status);
      transitions := AppendGaps(transitions, covered, lo, hi);
      ghost var rest := rows;
      rows := rows + {Row(spec, lo, hi, cell)};
      SplitAll(old(rows), overlaps, spec, lo, hi);
      CarvedConsistent(old(rows), spec, lo, hi, rest, cell);
      CarvedReadsAs(old(rows), spec, lo, hi, rest, cell);
      CarvedBounds(old(rows), spec, lo, hi, rest, cell);
      CarvedKeepsOthers(old(rows), spec, lo, hi, rest, cell);
      TransitionsExact(old(rows), overlaps, spec, lo, hi, cell.status);
    }
  }

  /** Where every instant already has the status, there is nothing to tell. */
  lemma NothingTold(rows: set<Row>, spec: int, lo: Time, hi: Time, status: Status, ts: seq<Transition>)
    requires ExactTransitions(rows, spec, lo, hi, status, ts)
    requires forall t :: In(t, lo, hi) ==> StatusAt(rows, spec, t) == Some(status)
    ensures ts == []
  {
    assert |ts| > 0 ==> In(ts[0].start, ts[0].start, ts[0].end) && In(ts[0].start, lo, hi);
  }

  /** Repeating an overwrite reports no transition. */
  lemma RepeatIsSilent(before: set<Row>, once: set<Row>, twice: set<Row>, spec: int, lo: Time, hi: Time,
                       first: Cell, second: Cell, ts: seq<Transition>, us: seq<Transition>)
    requires Replaced(before, once, spec, lo, hi, first, ts) && Replaced(once, twice, spec, lo, hi, second, us)
    requires first.status == second.status
    ensures us == []
  {
    forall t | In(t, lo, hi) ensures StatusAt(once, spec, t) == Some(second.status) {
      assert CellAt(once, spec, t) == Overwritten(before, spec, lo, hi, first, spec, t);
    }
    NothingTold(once, spec, lo, hi, second.status, us);
  }
}
