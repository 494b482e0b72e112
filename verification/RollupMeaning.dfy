/** What a rolled-up candle says, in terms of the source candles themselves: prices, totals, times and revisions,
    and slot by slot its quality and completeness. */
module RollupMeaning {
  import opened Ordering
  import opened Calendar
  import opened Coverage
  import opened Rollup
  import opened RollupLocality
  import opened RollupBuild
  import opened RollupTotals

  // ---------------------------------------------------------------- values

  /** The minute candles of a bucket. */
  function MinuteIn(g: Grid, b: Time): SourceCandle -> bool { (c: SourceCandle) => !c.daily && g.start(c.start) == b }

  function Sum(source: seq<SourceCandle>, inside: SourceCandle -> bool, value: SourceCandle -> real): real {
    if source == [] then 0.0 else
      (if inside(source[0]) then value(source[0]) else 0.0) + Sum(source[1..], inside, value)
  }

  /** The candle `v` reports the source candles that are `inside`. */
  ghost predicate Reports(v: Bar, source: seq<SourceCandle>, inside: SourceCandle -> bool) {
    && ReportsPrices(v, source, inside)
    && ReportsTimes(v, source, inside)
    && v.volume == Sum(source, inside, (c: SourceCandle) => c.volume)
    && v.amount == Sum(source, inside, (c: SourceCandle) => c.amount)
    && (forall r :: r in v.revisions <==> exists c :: c in source && inside(c) && c.revision == Some(r))
  }

  /** High and low are the extremes of the candles' highs and lows; open and close are those of an earliest and of a
      latest candle. */
  ghost predicate ReportsPrices(v: Bar, source: seq<SourceCandle>, inside: SourceCandle -> bool) {
    && (forall c :: c in source && inside(c) ==> v.low <= c.low && c.high <= v.high)
    && (exists c :: c in source && inside(c) && c.high == v.high)
    && (exists c :: c in source && inside(c) && c.low == v.low)
    && (exists c :: c in source && inside(c) && c.open == v.open
          && forall d :: d in source && inside(d) ==> c.start <= d.start)
    && (exists c :: c in source && inside(c) && c.close == v.close
          && forall d :: d in source && inside(d) ==> d.start <= c.start)
  }

  /** When a candle became known: its own knowledge time, or else when it was collected. */
  function KnownAt(c: SourceCandle): Time {
    match c.knowledgeAt
    case Some(t) => t
    case None => c.collectedAt
  }

  /** Source and knowledge time are the latest of the candles'. */
  ghost predicate ReportsTimes(v: Bar, source: seq<SourceCandle>, inside: SourceCandle -> bool) {
    && v.asOf.Some? && v.knowledge.Some?
    && (forall c :: c in source && inside(c) ==> c.collectedAt <= v.asOf.value && KnownAt(c) <= v.knowledge.value)
    && (exists c :: c in source && inside(c) && c.collectedAt == v.asOf.value)
    && (exists c :: c in source && inside(c) && KnownAt(c) == v.knowledge.value)
  }

  // ---------------------------------------------------------------- ... of bars

  /** The same of bars: `v` combines the bars `items`. */
  ghost predicate Combines(v: Bar, items: seq<Bar>) {
    && (forall x :: x in items ==> v.low <= x.low && x.high <= v.high)
    && (exists x :: x in items && x.high == v.high)
    && (exists x :: x in items && x.low == v.low)
    && (exists x :: x in items && x.open == v.open && forall y :: y in items ==> x.at <= y.at)
    && (exists x :: x in items && x.close == v.close && forall y :: y in items ==> y.at <= x.at)
    && (forall x :: x in items && x.asOf.Some? ==> v.asOf.Some? && x.asOf.value <= v.asOf.value)
    && (forall x :: x in items && x.knowledge.Some? ==> v.knowledge.Some? && x.knowledge.value <= v.knowledge.value)
    && (v.asOf.Some? ==> exists x :: x in items && x.asOf == v.asOf)
    && (v.knowledge.Some? ==> exists x :: x in items && x.knowledge == v.knowledge)
    && (forall r :: r in v.revisions <==> exists x :: x in items && r in x.revisions)
    && v.volume == BarSum(items, (x: Bar) => x.volume) && v.amount == BarSum(items, (x: Bar) => x.amount)
  }

  function BarSum(items: seq<Bar>, value: Bar -> real): real {
    if items == [] then 0.0 else value(items[0]) + BarSum(items[1..], value)
  }

  lemma {:induction false} HighIs(s: seq<Bar>)
    requires s != []
    ensures forall x :: x in s ==> x.high <= High(s)
    ensures exists x :: x in s && x.high == High(s)
  {
    assert s == [s[0]] + s[1..];
    if |s| > 1 { HighIs(s[1..]); }
    assert s[0] in s;
  }

  lemma {:induction false} LowIs(s: seq<Bar>)
    requires s != []
    ensures forall x :: x in s ==> Low(s) <= x.low
    ensures exists x :: x in s && x.low == Low(s)
  {
    assert s == [s[0]] + s[1..];
    if |s| > 1 { LowIs(s[1..]); }
    assert s[0] in s;
  }

  lemma {:induction false} AsOfIs(s: seq<Bar>)
    ensures forall x :: x in s && x.asOf.Some? ==> LatestAsOf(s).Some? && x.asOf.value <= LatestAsOf(s).value
    ensures LatestAsOf(s).Some? ==> exists x :: x in s && x.asOf == LatestAsOf(s)
  {
    if s != [] {
      assert s == [s[0]] + s[1..];
      AsOfIs(s[1..]);
      assert s[0] in s;
    }
  }

  lemma {:induction false} KnowledgeIs(s: seq<Bar>)
    ensures forall x :: x in s && x.knowledge.Some? ==>
      LatestKnowledge(s).Some? && x.knowledge.value <= LatestKnowledge(s).value
    ensures LatestKnowledge(s).Some? ==> exists x :: x in s && x.knowledge == LatestKnowledge(s)
  {
    if s != [] {
      assert s == [s[0]] + s[1..];
      KnowledgeIs(s[1..]);
      assert s[0] in s;
    }
  }

  lemma {:induction false} RevisionsIs(s: seq<Bar>, r: int)
    ensures r in Revisions(s) <==> exists x :: x in s && r in x.revisions
  {
    if s != [] {
      assert s == [s[0]] + s[1..];
      RevisionsIs(s[1..], r);
      assert s[0] in s;
    }
  }

  lemma {:induction false} SumsAre(s: seq<Bar>)
    ensures Volume(s) == BarSum(s, (x: Bar) => x.volume) && Amount(s) == BarSum(s, (x: Bar) => x.amount)
  {
    if s != [] { SumsAre(s[1..]); }
  }

  lemma EndsAre(s: seq<Bar>)
    requires s != [] && SortedBy(s, ByStart)
    ensures forall y :: y in s ==> s[0].at <= y.at <= s[|s| - 1].at
  {
    forall y | y in s ensures s[0].at <= y.at <= s[|s| - 1].at {
      var i :| 0 <= i < |s| && s[i] == y;
      assert i > 0 ==> ByStart(s[0], s[i]);
      assert i < |s| - 1 ==> ByStart(s[i], s[|s| - 1]);
    }
  }

  /** A summary of ordered bars combines them. */
  lemma SummaryCombines(v: Bar, s: seq<Bar>)
    requires Summarizes(v, s) && SortedBy(s, ByStart)
    ensures Combines(v, s)
  {
    HighIs(s);
    LowIs(s);
    AsOfIs(s);
    KnowledgeIs(s);
    forall r ensures r in v.revisions <==> exists x :: x in s && r in x.revisions { RevisionsIs(s, r); }
    SumsAre(s);
    EndsAre(s);
    assert s[0] in s && s[|s| - 1] in s;
  }

  // ---------------------------------------------------------------- from bars to source candles

  lemma {:induction false} SplitHas(source: seq<SourceCandle>, c: SourceCandle)
    requires c in source
    ensures if c.daily then SourceView(c) in Split(source).dailies else SourceBar(c) in Split(source).minutes
  {
    if source[0] != c {
      assert source == [source[0]] + source[1..];
      SplitHas(source[1..], c);
    }
  }

  lemma {:induction false} SplitFrom(source: seq<SourceCandle>, x: Bar) returns (c: SourceCandle)
    requires x in Split(source).minutes
    ensures c in source && !c.daily && x == SourceBar(c)
  {
    if !source[0].daily && x == SourceBar(source[0]) {
      c := source[0];
    } else {
      c := SplitFrom(source[1..], x);
    }
  }

  /** The bar of a minute candle of the bucket is in its group. */
  lemma InGroup(source: seq<SourceCandle>, g: Grid, b: Time, c: SourceCandle)
    requires c in source && MinuteIn(g, b)(c)
    ensures SourceBar(c) in Group(g, Split(source).minutes, b)
  {
    SplitHas(source, c);
    GroupMembers(g, Split(source).minutes, b, SourceBar(c));
  }

  /** ... and a bar of the group is that of a minute candle of the bucket. */
  lemma FromGroup(source: seq<SourceCandle>, g: Grid, b: Time, x: Bar) returns (c: SourceCandle)
    requires x in Group(g, Split(source).minutes, b)
    ensures c in source && MinuteIn(g, b)(c) && x == SourceBar(c)
  {
    GroupMembers(g, Split(source).minutes, b, x);
    c := SplitFrom(source, x);
  }

  lemma {:induction false} SumsOfSource(source: seq<SourceCandle>, g: Grid, b: Time)
    ensures var taken := Filter(Split(source).minutes, InBucket(g, b));
      && Volume(taken) == Sum(source, MinuteIn(g, b), (c: SourceCandle) => c.volume)
      && Amount(taken) == Sum(source, MinuteIn(g, b), (c: SourceCandle) => c.amount)
  {
    if source != [] {
      SumsOfSource(source[1..], g, b);
      var rest := Split(source[1..]).minutes;
      if !source[0].daily {
        assert ([SourceBar(source[0])] + rest)[1..] == rest;
        FilterCons([SourceBar(source[0])] + rest, InBucket(g, b));
      }
    }
  }

  lemma GroupSums(source: seq<SourceCandle>, g: Grid, b: Time)
    ensures Volume(Group(g, Split(source).minutes, b)) == Sum(source, MinuteIn(g, b), (c: SourceCandle) => c.volume)
    ensures Amount(Group(g, Split(source).minutes, b)) == Sum(source, MinuteIn(g, b), (c: SourceCandle) => c.amount)
  {
    SumsOfSource(source, g, b);
    SortTotals(Filter(Split(source).minutes, InBucket(g, b)));
  }

  lemma PricesReported(v: Bar, source: seq<SourceCandle>, g: Grid, b: Time)
    requires Combines(v, Group(g, Split(source).minutes, b))
    ensures ReportsPrices(v, source, MinuteIn(g, b))
  {
    var o, inside := Group(g, Split(source).minutes, b), MinuteIn(g, b);
    forall c | c in source && inside(c) ensures v.low <= c.low && c.high <= v.high { InGroup(source, g, b, c); }
    var h :| h in o && h.high == v.high;
    var l :| l in o && l.low == v.low;
    var ch := FromGroup(source, g, b, h);
    var cl := FromGroup(source, g, b, l);
    FirstReported(v, source, g, b);
    LastReported(v, source, g, b);
  }

  lemma FirstReported(v: Bar, source: seq<SourceCandle>, g: Grid, b: Time)
    requires Combines(v, Group(g, Split(source).minutes, b))
    ensures exists c :: c in source && MinuteIn(g, b)(c) && c.open == v.open
              && forall d :: d in source && MinuteIn(g, b)(d) ==> c.start <= d.start
  {
    var o := Group(g, Split(source).minutes, b);
    var x :| x in o && x.open == v.open && forall y :: y in o ==> x.at <= y.at;
    var c := FromGroup(source, g, b, x);
    forall d | d in source && MinuteIn(g, b)(d) ensures c.start <= d.start { InGroup(source, g, b, d); }
  }

  lemma LastReported(v: Bar, source: seq<SourceCandle>, g: Grid, b: Time)
    requires Combines(v, Group(g, Split(source).minutes, b))
    ensures exists c :: c in source && MinuteIn(g, b)(c) && c.close == v.close
              && forall d :: d in source && MinuteIn(g, b)(d) ==> d.start <= c.start
  {
    var o := Group(g, Split(source).minutes, b);
    var x :| x in o && x.close == v.close && forall y :: y in o ==> y.at <= x.at;
    var c := FromGroup(source, g, b, x);
    forall d | d in source && MinuteIn(g, b)(d) ensures d.start <= c.start { InGroup(source, g, b, d); }
  }

  lemma TimesReported(v: Bar, source: seq<SourceCandle>, g: Grid, b: Time)
    requires Combines(v, Group(g, Split(source).minutes, b))
    ensures ReportsTimes(v, source, MinuteIn(g, b))
  {
    var o := Group(g, Split(source).minutes, b);
    forall c | c in source && MinuteIn(g, b)(c)
      ensures v.asOf.Some? && v.knowledge.Some? && c.collectedAt <= v.asOf.value && KnownAt(c) <= v.knowledge.value
    {
      InGroup(source, g, b, c);
    }
    var any :| any in o && any.high == v.high;
    var c := FromGroup(source, g, b, any);
    var s :| s in o && s.asOf == v.asOf;
    var k :| k in o && k.knowledge == v.knowledge;
    var cs := FromGroup(source, g, b, s);
    var ck := FromGroup(source, g, b, k);
  }

  lemma RevisionReported(v: Bar, source: seq<SourceCandle>, g: Grid, b: Time, r: int)
    requires Combines(v, Group(g, Split(source).minutes, b))
    ensures r in v.revisions <==> exists c :: c in source && MinuteIn(g, b)(c) && c.revision == Some(r)
  {
    var o := Group(g, Split(source).minutes, b);
    if r in v.revisions {
      var x :| x in o && r in x.revisions;
      var c := FromGroup(source, g, b, x);
    }
    if c :| c in source && MinuteIn(g, b)(c) && c.revision == Some(r) {
      InGroup(source, g, b, c);
      assert r in SourceBar(c).revisions;
    }
  }

  /** A bar that summarises the group of a bucket reports its minute candles. */
  lemma SummaryReports(v: Bar, source: seq<SourceCandle>, g: Grid, b: Time)
    requires Summarizes(v, Group(g, Split(source).minutes, b))
    ensures Reports(v, source, MinuteIn(g, b))
  {
    GroupSorted(g, Split(source).minutes, b);
    SummaryCombines(v, Group(g, Split(source).minutes, b));
    PricesReported(v, source, g, b);
    TimesReported(v, source, g, b);
    GroupSums(source, g, b);
    forall r ensures r in v.revisions <==> exists c :: c in source && MinuteIn(g, b)(c) && c.revision == Some(r) {
      RevisionReported(v, source, g, b, r);
    }
  }
}
