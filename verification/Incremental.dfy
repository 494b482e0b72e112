/** Recomputing only the affected ranges of a materialized roll-up table gives the full roll-up. */
module Incremental {
  import opened Ordering
  import opened Calendar
  import opened Coverage
  import opened Rollup
  import opened RollupLocality
  import opened RollupRanges

  function StartsAt(t: Time): SourceCandle -> bool { (c: SourceCandle) => c.start == t }

  function KindAt(daily: bool, t: Time): SourceCandle -> bool { (c: SourceCandle) => c.daily == daily && c.start == t }

  /** One recompute job: the candles of the range are replaced by those rolled up from the source and
      the coverage snapshot of the range alone. */
  function RecomputeRange(u: Unit, table: map<Time, View>, inp: Inputs, cov: set<Slice>, r: Range): map<Time, View> {
    (map b | b in table && !(r.start <= b < r.end) :: table[b])
    + Table(u, Restrict(inp, r.start, r.end), ClipCoverage(cov, r.start, r.end))
  }

  function RecomputeAll(u: Unit, table: map<Time, View>, inp: Inputs, cov: set<Slice>, rs: seq<Range>): map<Time, View>
    decreases |rs|
  {
    if rs == [] then table else RecomputeAll(u, RecomputeRange(u, table, inp, cov, rs[0]), inp, cov, rs[1..])
  }

  // ---------------------------------------------------------------- the table is its candles

  lemma GroupKey(g: Grid, minutes: seq<Bar>, b: Time)
    requires Group(g, minutes, b) != []
    ensures b in set x | x in minutes :: g.start(x.at)
  {
    var o := Group(g, minutes, b);
    StableSortMembers(Filter(minutes, InBucket(g, b)), ByStart);
    assert o[0] in o && o[0] in minutes && g.start(o[0].at) == b;
  }

  lemma DayKey(f: Frame, inp: Inputs, cov: set<Slice>, d: Time)
    requires DayView(f, inp, cov, d).Some?
    ensures d in DayKeys(f.grid, inp)
  {
    if LastDaily(inp.dailies, d).Some? {
      LastDailyIn(inp.dailies, d);
    } else {
      GroupKey(f.grid, inp.minutes, d);
    }
  }

  lemma LongKey(long: Frame, day: Frame, inp: Inputs, cov: set<Slice>, b: Time)
    requires LongView(long, day, inp, cov, b).Some?
    ensures exists d :: d in DayKeys(day.grid, inp) && long.grid.start(d) == b
  {
    var ds := DaysOf(long.grid, DayKeys(day.grid, inp), b);
    assert ds[0] in ds;
  }

  lemma ViewKey(u: Unit, inp: Inputs, cov: set<Slice>, b: Time)
    requires ViewAt(u, inp, cov, b).Some?
    ensures b in Keys(u, inp)
  {
    if DaySlots(u) {
      LongKey(FrameOf(u), FrameOf(Day1), inp, cov, b);
    } else if u == Day1 {
      DayKey(FrameOf(u), inp, cov, b);
    } else {
      GroupKey(GridOf(u), inp.minutes, b);
    }
  }

  lemma TableLookup(u: Unit, inp: Inputs, cov: set<Slice>, b: Time)
    ensures Lookup(Table(u, inp, cov), b) == ViewAt(u, inp, cov, b)
  {
    if ViewAt(u, inp, cov, b).Some? { ViewKey(u, inp, cov, b); }
  }

  lemma LookupEqual(m: map<Time, View>, n: map<Time, View>)
    requires forall b: Time :: Lookup(m, b) == Lookup(n, b)
    ensures m == n
  {
    assert forall b: Time :: b in m <==> Lookup(m, b).Some?;
    assert forall b: Time :: b in n <==> Lookup(n, b).Some?;
    assert m.Keys == n.Keys;
    forall b | b in m ensures m[b] == n[b] { assert Lookup(m, b) == Lookup(n, b); }
  }

  // ---------------------------------------------------------------- recomputation

  ghost predicate AlignedTo(u: Unit, rs: seq<Range>) {
    forall i :: 0 <= i < |rs| ==> GridOf(u).start(rs[i].start) == rs[i].start && GridOf(u).start(rs[i].end) == rs[i].end
  }

  predicate InRanges(rs: seq<Range>, b: Time) {
    exists i :: 0 <= i < |rs| && rs[i].start <= b < rs[i].end
  }

  lemma InRangesFirst(rs: seq<Range>, b: Time)
    requires rs != []
    ensures InRanges(rs, b) <==> rs[0].start <= b < rs[0].end || InRanges(rs[1..], b)
  {
    if InRanges(rs[1..], b) {
      var i :| 0 <= i < |rs[1..]| && rs[1..][i].start <= b < rs[1..][i].end;
      assert rs[i + 1] == rs[1..][i];
    }
    if InRanges(rs, b) && !(rs[0].start <= b < rs[0].end) {
      var i :| 0 <= i < |rs| && rs[i].start <= b < rs[i].end;
      assert rs[1..][i - 1] == rs[i];
    }
  }

  lemma RangeLookup(u: Unit, table: map<Time, View>, inp: Inputs, cov: set<Slice>, r: Range, b: Time)
    requires GridOf(u).start(r.start) == r.start && GridOf(u).start(r.end) == r.end
    ensures Lookup(RecomputeRange(u, table, inp, cov, r), b)
         == if r.start <= b < r.end then ViewAt(u, inp, cov, b) else Lookup(table, b)
  {
    ViewLocal(u, inp, cov, r.start, r.end, b);
    TableLookup(u, Restrict(inp, r.start, r.end), ClipCoverage(cov, r.start, r.end), b);
  }

  lemma {:induction false} RecomputeLookup(u: Unit, table: map<Time, View>, inp: Inputs, cov: set<Slice>,
                                           rs: seq<Range>, b: Time)
    requires AlignedTo(u, rs)
    ensures Lookup(RecomputeAll(u, table, inp, cov, rs), b)
         == if InRanges(rs, b) then ViewAt(u, inp, cov, b) else Lookup(table, b)
    decreases |rs|
  {
    if rs != [] {
      RangeLookup(u, table, inp, cov, rs[0], b);
      InRangesFirst(rs, b);
      RecomputeLookup(u, RecomputeRange(u, table, inp, cov, rs[0]), inp, cov, rs[1..], b);
    }
  }

  // ---------------------------------------------------------------- changed instants

  lemma {:induction false} SplitAt(s: seq<SourceCandle>, t: Time)
    ensures Filter(Split(s).minutes, AtTime(t)) == Split(Filter(s, StartsAt(t))).minutes
    ensures Filter(Split(s).dailies, ViewAtTime(t)) == Split(Filter(s, StartsAt(t))).dailies
  {
    if s != [] {
      SplitAt(s[1..], t);
      var rest := Filter(s[1..], StartsAt(t));
      assert s[0].start == t ==> Filter(s, StartsAt(t)) == [s[0]] + rest && ([s[0]] + rest)[1..] == rest;
      assert s[0].start != t ==> Filter(s, StartsAt(t)) == rest;
      var sp := Split(s[1..]);
      if s[0].daily {
        FilterConcat([SourceView(s[0])], sp.dailies, ViewAtTime(t));
      } else {
        FilterConcat([SourceBar(s[0])], sp.minutes, AtTime(t));
      }
    }
  }

  /** Outside the changed instants both sources hold the same candles. */
  ghost predicate DifferOnlyAt(before: seq<SourceCandle>, after: seq<SourceCandle>, changed: set<Time>) {
    forall t: Time :: t !in changed ==> Filter(before, StartsAt(t)) == Filter(after, StartsAt(t))
  }

  lemma SameOutside(before: seq<SourceCandle>, after: seq<SourceCandle>, changed: set<Time>, t: Time)
    requires DifferOnlyAt(before, after, changed) && t !in changed
    ensures SameAt(Split(before), Split(after), t)
  {
    SplitAt(before, t);
    SplitAt(after, t);
  }

  lemma ChangedAligned(u: Unit, changed: set<Time>)
    ensures AlignedTo(u, UnitChunks(u, changed))
  {
    var rs := UnitChunks(u, changed);
    AffectedExactly(u, changed, 0);
    forall i | 0 <= i < |rs|
      ensures GridOf(u).start(rs[i].start) == rs[i].start && GridOf(u).start(rs[i].end) == rs[i].end
    {
      assert rs[i] in rs && Whole(u, GridOf(u), rs[i]);
    }
  }

  /** A bucket with a changed instant lies in an affected range. */
  lemma ChangedInRanges(u: Unit, changed: set<Time>, b: Time, c: Time)
    requires c in changed && GridOf(u).start(c) == GridOf(u).start(b)
    ensures InRanges(UnitChunks(u, changed), b)
  {
    AffectedExactly(u, changed, b);
    ChangedAligned(u, changed);
    UnitGrid(u);
    StartInRanges(u, GridOf(u), UnitChunks(u, changed), b);
  }

  lemma StartInRanges(u: Unit, g: Grid, rs: seq<Range>, b: Time)
    requires g == GridOf(u) && Tiling(g) && AlignedTo(u, rs)
    requires exists r :: r in rs && r.start <= g.start(b) < r.end
    ensures InRanges(rs, b)
  {
    var r :| r in rs && r.start <= g.start(b) < r.end;
    var i :| 0 <= i < |rs| && rs[i] == r;
    InBucketIn(g, rs[i].start, rs[i].end, g.start(b), b);
  }

  lemma UnaffectedSame(u: Unit, before: seq<SourceCandle>, after: seq<SourceCandle>, changed: set<Time>, b: Time)
    requires DifferOnlyAt(before, after, changed) && !InRanges(UnitChunks(u, changed), b)
    ensures SameBucket(GridOf(u), Split(before), Split(after), b)
  {
    forall t: Time | GridOf(u).start(t) == GridOf(u).start(b) ensures SameAt(Split(before), Split(after), t) {
      if t in changed { ChangedInRanges(u, changed, b, t); }
      SameOutside(before, after, changed, t);
    }
  }

  lemma UnaffectedLookup(u: Unit, before: seq<SourceCandle>, after: seq<SourceCandle>, cov: set<Slice>,
                         changed: set<Time>, b: Time)
    requires DifferOnlyAt(before, after, changed) && !InRanges(UnitChunks(u, changed), b)
    ensures Lookup(Table(u, Split(before), cov), b) == Lookup(Table(u, Split(after), cov), b)
  {
    TableLookup(u, Split(before), cov, b);
    TableLookup(u, Split(after), cov, b);
    UnaffectedSame(u, before, after, changed, b);
    ViewUnchanged(u, Split(before), Split(after), cov, b);
  }

  /** Incremental equals full: when two sources differ only at the changed instants, recomputing just the
      affected ranges, each from its own candles and clipped coverage, turns the roll-up of the one
      into exactly the roll-up of the other. */
  lemma IncrementalEqualsFull(u: Unit, before: seq<SourceCandle>, after: seq<SourceCandle>, cov: set<Slice>,
                              changed: set<Time>)
    requires DifferOnlyAt(before, after, changed)
    ensures RecomputeAll(u, Table(u, Split(before), cov), Split(after), cov, UnitChunks(u, changed))
         == Table(u, Split(after), cov)
  {
    var rs := UnitChunks(u, changed);
    var rebuilt := RecomputeAll(u, Table(u, Split(before), cov), Split(after), cov, rs);
    ChangedAligned(u, changed);
    forall b: Time ensures Lookup(rebuilt, b) == Lookup(Table(u, Split(after), cov), b) {
      RecomputeLookup(u, Table(u, Split(before), cov), Split(after), cov, rs, b);
      TableLookup(u, Split(after), cov, b);
      if !InRanges(rs, b) { UnaffectedLookup(u, before, after, cov, changed, b); }
    }
    LookupEqual(rebuilt, Table(u, Split(after), cov));
  }

  /** No two source candles of one unit start together. */
  predicate DistinctStarts(s: seq<SourceCandle>) {
    forall i, j :: 0 <= i < j < |s| ==> s[i].daily != s[j].daily || s[i].start != s[j].start
  }

  lemma {:induction false} AtMostOne(s: seq<SourceCandle>, t: Time, daily: bool)
    requires DistinctStarts(s)
    ensures |Filter(s, KindAt(daily, t))| <= 1
  {
    var p := KindAt(daily, t);
    if s != [] {
      AtMostOne(s[1..], t, daily);
      if p(s[0]) {
        forall c | c in s[1..] ensures !p(c) {
          var j :| 0 <= j < |s[1..]| && s[1..][j] == c;
          assert s[j + 1] == c;
        }
        FilterNone(s[1..], p);
      }
    }
  }

  lemma ShortSame<T>(a: seq<T>, b: seq<T>)
    requires |a| <= 1 && |b| <= 1 && forall x :: x in a <==> x in b
    ensures a == b
  {
    assert |a| > 0 ==> a[0] in a;
    assert |b| > 0 ==> b[0] in b;
  }

  lemma {:induction false} SplitKinds(s: seq<SourceCandle>, t: Time)
    ensures Split(Filter(s, StartsAt(t))).minutes == Split(Filter(s, KindAt(false, t))).minutes
    ensures Split(Filter(s, StartsAt(t))).dailies == Split(Filter(s, KindAt(true, t))).dailies
  {
    var p, m, d := StartsAt(t), KindAt(false, t), KindAt(true, t);
    if s != [] {
      SplitKinds(s[1..], t);
      FilterCons(s, p);
      FilterCons(s, m);
      FilterCons(s, d);
      SplitCons(s[0], Filter(s[1..], p));
      SplitCons(s[0], Filter(s[1..], m));
      SplitCons(s[0], Filter(s[1..], d));
    }
  }

  lemma SplitCons(c: SourceCandle, s: seq<SourceCandle>)
    ensures Split([c] + s).minutes == (if c.daily then [] else [SourceBar(c)]) + Split(s).minutes
    ensures Split([c] + s).dailies == (if c.daily then [SourceView(c)] else []) + Split(s).dailies
  {
    assert ([c] + s)[1..] == s;
  }

  /** The roll-up ignores the order of the source when no two candles of a unit start together. */
  lemma RollupIgnoresOrder(u: Unit, a: seq<SourceCandle>, b: seq<SourceCandle>, cov: set<Slice>)
    requires multiset(a) == multiset(b) && DistinctStarts(a) && DistinctStarts(b)
    ensures Table(u, Split(a), cov) == Table(u, Split(b), cov)
  {
    forall x ensures x in a <==> x in b {
      assert x in a <==> x in multiset(a);
      assert x in b <==> x in multiset(b);
    }
    forall at: Time ensures Lookup(Table(u, Split(a), cov), at) == Lookup(Table(u, Split(b), cov), at) {
      forall t: Time ensures SameAt(Split(a), Split(b), t) { SameSingle(a, b, t); }
      ViewUnchanged(u, Split(a), Split(b), cov, at);
      TableLookup(u, Split(a), cov, at);
      TableLookup(u, Split(b), cov, at);
    }
    LookupEqual(Table(u, Split(a), cov), Table(u, Split(b), cov));
  }

  lemma SameSingle(a: seq<SourceCandle>, b: seq<SourceCandle>, t: Time)
    requires DistinctStarts(a) && DistinctStarts(b) && forall x :: x in a <==> x in b
    ensures SameAt(Split(a), Split(b), t)
  {
    var m, d := KindAt(false, t), KindAt(true, t);
    AtMostOne(a, t, false); AtMostOne(b, t, false);
    AtMostOne(a, t, true); AtMostOne(b, t, true);
    ShortSame(Filter(a, m), Filter(b, m));
    ShortSame(Filter(a, d), Filter(b, d));
    SplitAt(a, t); SplitAt(b, t);
    SplitKinds(a, t); SplitKinds(b, t);
  }
}
