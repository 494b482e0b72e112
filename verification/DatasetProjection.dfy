/** The status and coverage projections of a dataset (`_validate_status_projection`,
    `_validate_coverage_projection`): when they are accepted. */
module DatasetProjection {
  import opened Ordering
  import opened CanonicalDigest

  /** The last representable instant, 9999-12-31 23:59:59.999999, in microseconds from 0001-01-01. */
  const LAST := 3_652_059 * 86_400_000_000 - 1

  type Series = seq<Option<string>>

  /** A market status (series: the market; tag: when observed) or a coverage segment (tag: its end). A status
      that is still valid has no end. */
  datatype Segment = Segment(series: Series, start: int, end: Option<int>, tag: int)

  /** The end of a segment; one without an end lasts to the last instant. */
  function EndOf(s: Segment): int { if s.end.Some? then s.end.value else LAST }

  /** What the segment's own checks ensure: representable instants, and a given end lies after the start. */
  predicate Proper(s: Segment) { s.start <= LAST && (s.end.Some? ==> s.start < s.end.value <= LAST) }

  predicate AllProper(items: seq<Segment>) { forall i :: 0 <= i < |items| ==> Proper(items[i]) }

  predicate Holds(s: Segment, t: int) { s.start <= t < EndOf(s) }

  /** No instant belongs to two segments of one series. */
  ghost predicate Apart(a: Segment, b: Segment) {
    a.series == b.series ==> forall t :: !(Holds(a, t) && Holds(b, t))
  }

  type Identity = (Series, int, int)

  function IdentityOf(s: Segment): Identity { (s.series, s.start, s.tag) }

  /** What a projection has to satisfy: no repeated segment, and none of a series overlapping another. */
  ghost predicate Sound(a: Segment, b: Segment) { IdentityOf(a) != IdentityOf(b) && Apart(a, b) }

  ghost predicate SoundProjection(items: seq<Segment>) {
    forall i, j :: 0 <= i < j < |items| ==> Sound(items[i], items[j])
  }

  // ---------------------------------------------------------------- the validators' loop

  /** The order in which the validators see them: within a series, by start. */
  ghost predicate InStartOrder(items: seq<Segment>) {
    forall i, j :: 0 <= i < j < |items| && items[i].series == items[j].series ==> items[i].start <= items[j].start
  }

  /** An earlier segment lets a later one through: another identity, and over before a later one of its series. */
  predicate Admits(a: Segment, b: Segment) {
    IdentityOf(a) != IdentityOf(b) && (a.series == b.series ==> EndOf(a) <= b.start)
  }

  ghost predicate Admitted(items: seq<Segment>, n: nat)
    requires n <= |items|
  {
    forall i, j :: 0 <= i < j < n ==> Admits(items[i], items[j])
  }

  lemma AdmitsIffSound(a: Segment, b: Segment)
    requires Proper(a) && Proper(b) && (a.series == b.series ==> a.start <= b.start)
    ensures Admits(a, b) <==> Sound(a, b)
  {
    if a.series == b.series && Apart(a, b) {
      assert Holds(b, b.start) <==> b.start < EndOf(b);
      assert Holds(a, b.start) <==> b.start < EndOf(a);
    }
  }

  lemma Refused(items: seq<Segment>, i: nat, j: nat)
    requires i < j < |items| && !Admits(items[i], items[j])
    ensures !Admitted(items, |items|)
  {}

  ghost predicate SeenOnly(items: seq<Segment>, n: nat, seen: set<Identity>)
    requires n <= |items|
  {
    && (forall i :: 0 <= i < n ==> IdentityOf(items[i]) in seen)
    && (forall x :: x in seen ==> exists i :: 0 <= i < n && x == IdentityOf(items[i]))
  }

  lemma SeenStep(items: seq<Segment>, n: nat, seen: set<Identity>)
    requires n < |items| && SeenOnly(items, n, seen)
    ensures SeenOnly(items, n + 1, seen + {IdentityOf(items[n])})
  {
    forall x | x in seen + {IdentityOf(items[n])} ensures exists i :: 0 <= i < n + 1 && x == IdentityOf(items[i]) {
      if x in seen { var i :| 0 <= i < n && x == IdentityOf(items[i]); }
    }
  }

  type Ends = map<Series, int>

  /** `previous` has, for each series among the first `n` items, the end of one of them, and none ends later. */
  ghost predicate LastEnds(items: seq<Segment>, n: nat, previous: Ends)
    requires n <= |items|
  {
    && (forall i :: 0 <= i < n ==> items[i].series in previous && EndOf(items[i]) <= previous[items[i].series])
    && (forall s :: s in previous ==> exists i :: 0 <= i < n && items[i].series == s && EndOf(items[i]) == previous[s])
  }

  lemma LastEndsStep(items: seq<Segment>, n: nat, previous: Ends)
    requires n < |items| && LastEnds(items, n, previous) && Proper(items[n]) && LetThrough(items, n)
    ensures LastEnds(items, n + 1, previous[items[n].series := EndOf(items[n])])
  {
    var after := previous[items[n].series := EndOf(items[n])];
    forall s | s in after ensures exists i :: 0 <= i < n + 1 && items[i].series == s && EndOf(items[i]) == after[s] {
      if s == items[n].series {
        assert EndOf(items[n]) == after[s];
      } else {
        var i :| 0 <= i < n && items[i].series == s && EndOf(items[i]) == previous[s];
        assert EndOf(items[i]) == after[s];
      }
    }
  }

  predicate Overlaps(item: Segment, previous: Ends) {
    item.series in previous && item.start < previous[item.series]
  }

  lemma DuplicateRefused(items: seq<Segment>, n: nat, seen: set<Identity>)
    requires n < |items| && SeenOnly(items, n, seen) && IdentityOf(items[n]) in seen
    ensures !Admitted(items, |items|)
  {
    var i :| 0 <= i < n && IdentityOf(items[n]) == IdentityOf(items[i]);
    Refused(items, i, n);
  }

  lemma OverlapRefused(items: seq<Segment>, n: nat, previous: Ends)
    requires n < |items| && LastEnds(items, n, previous) && Overlaps(items[n], previous)
    ensures !Admitted(items, |items|)
  {
    var i :| 0 <= i < n && items[i].series == items[n].series && EndOf(items[i]) == previous[items[n].series];
    Refused(items, i, n);
  }

  lemma AdmitNext(items: seq<Segment>, n: nat, seen: set<Identity>, previous: Ends, i: nat)
    requires i < n < |items| && SeenOnly(items, n, seen) && LastEnds(items, n, previous)
    requires IdentityOf(items[n]) !in seen && !Overlaps(items[n], previous)
    ensures Admits(items[i], items[n])
  {}

  /** All of the first `n` items let item `n` through. */
  ghost predicate LetThrough(items: seq<Segment>, n: nat)
    requires n < |items|
  {
    forall i :: 0 <= i < n ==> Admits(items[i], items[n])
  }

  lemma AdmitAll(items: seq<Segment>, n: nat, seen: set<Identity>, previous: Ends)
    requires n < |items| && SeenOnly(items, n, seen) && LastEnds(items, n, previous)
    requires IdentityOf(items[n]) !in seen && !Overlaps(items[n], previous)
    ensures LetThrough(items, n)
  {
    forall i | 0 <= i < n ensures Admits(items[i], items[n]) { AdmitNext(items, n, seen, previous, i); }
  }

  lemma AdmittedNext(items: seq<Segment>, n: nat)
    requires n < |items| && Admitted(items, n) && LetThrough(items, n)
    ensures Admitted(items, n + 1)
  {}

  method CheckInOrder(items: seq<Segment>) returns (ok: bool)
    requires AllProper(items)
    ensures ok <==> Admitted(items, |items|)
  {
    var seen: set<Identity>, previous: Ends := {}, map[];
    var n := 0;
    while n < |items|
      invariant 0 <= n <= |items| && SeenOnly(items, n, seen) && LastEnds(items, n, previous) && Admitted(items, n)
    {
      var item := items[n];
      if IdentityOf(item) in seen {
        DuplicateRefused(items, n, seen);
        return false;
      }
      if Overlaps(item, previous) {
        OverlapRefused(items, n, previous);
        return false;
      }
      AdmitAll(items, n, seen, previous);
      AdmittedNext(items, n);
      LastEndsStep(items, n, previous);
      SeenStep(items, n, seen);
      seen := seen + {IdentityOf(item)};
      previous := previous[item.series := EndOf(item)];
      n := n + 1;
    }
    ok := true;
  }

  // ---------------------------------------------------------------- in canonical order

  function SeriesText(s: Series): seq<string> { if s == [] then [] else [Text(s[0])] + SeriesText(s[1..]) }

  /** The order of the projections: by the texts of the series, then by start. */
  predicate BySeriesStart(a: Segment, b: Segment) {
    if SeriesText(a.series) == SeriesText(b.series) then a.start <= b.start
    else ListLeq(SeriesText(a.series), SeriesText(b.series))
  }

  lemma BySeriesStartTotal()
    ensures TotalPreorder(BySeriesStart)
  {
    forall a: Segment, b: Segment ensures BySeriesStart(a, b) || BySeriesStart(b, a) {
      ListTotal(SeriesText(a.series), SeriesText(b.series));
    }
    forall a: Segment, b: Segment, c: Segment | BySeriesStart(a, b) && BySeriesStart(b, c) ensures BySeriesStart(a, c) {
      var x, y, z := SeriesText(a.series), SeriesText(b.series), SeriesText(c.series);
      if x != y && y != z {
        ListTransitive(x, y, z);
        ListTotal(x, y);
      }
    }
  }

  lemma AdmittedIffSound(items: seq<Segment>)
    requires InStartOrder(items) && AllProper(items)
    ensures Admitted(items, |items|) <==> SoundProjection(items)
  {
    forall i, j | 0 <= i < j < |items| ensures Admits(items[i], items[j]) <==> Sound(items[i], items[j]) {
      AdmitsIffSound(items[i], items[j]);
    }
  }

  lemma SoundPermuted(a: seq<Segment>, b: seq<Segment>)
    requires multiset(a) == multiset(b) && SoundProjection(a)
    ensures SoundProjection(b)
  {
    PairwisePermuted(a, b, (x, y) => Sound(x, y));
  }

  lemma ProperPermuted(a: seq<Segment>, b: seq<Segment>)
    requires multiset(a) == multiset(b) && AllProper(a)
    ensures AllProper(b)
  {
    forall i | 0 <= i < |b| ensures Proper(b[i]) { var p := PlaceOf(a, b, i); }
  }

  /** A projection, in whatever order it is given, is accepted exactly when no segment is repeated and no two
      segments of a series share an instant. */
  method ValidateProjection(items: seq<Segment>) returns (ok: bool)
    requires AllProper(items)
    ensures ok <==> SoundProjection(items)
  {
    var sorted := StableSort(items, BySeriesStart);
    BySeriesStartTotal();
    StableSortSorted(items, BySeriesStart);
    ProperPermuted(items, sorted);
    AdmittedIffSound(sorted);
    if SoundProjection(items) { SoundPermuted(items, sorted); }
    if SoundProjection(sorted) { SoundPermuted(sorted, items); }
    ok := CheckInOrder(sorted);
  }
}
