/** Completeness, quality and input digest of a rolled-up candle, slot by slot and candle by candle. */
module RollupSlots {
  import opened Ordering
  import opened Calendar
  import opened Coverage
  import opened Rollup
  import opened RollupLocality
  import opened RollupTotals
  import opened RollupMeaning

  // ---------------------------------------------------------------- slots

  /** Some coverage slice that holds all of [from, to) has the status `q`. */
  ghost predicate Told(cov: set<Slice>, from: Time, to: Time, q: Status) {
    exists c :: c in cov && c.start <= from && to <= c.end && c.status == q
  }

  /** What the coverage says of [from, to): the gravest status told of it, and "unverified" when nothing is. */
  ghost predicate Reads(cov: set<Slice>, from: Time, to: Time, q: Status) {
    match q
    case Missing => Told(cov, from, to, Missing)
    case Unavailable => Told(cov, from, to, Unavailable) && !Told(cov, from, to, Missing)
    case Unverified =>
      && !Told(cov, from, to, Missing) && !Told(cov, from, to, Unavailable)
      && (Told(cov, from, to, Available) || Told(cov, from, to, NoTrade) ==> Told(cov, from, to, Unverified))
    case Available =>
      && Told(cov, from, to, Available)
      && !Told(cov, from, to, Missing) && !Told(cov, from, to, Unavailable) && !Told(cov, from, to, Unverified)
    case NoTrade =>
      && Told(cov, from, to, NoTrade) && !Told(cov, from, to, Available)
      && !Told(cov, from, to, Missing) && !Told(cov, from, to, Unavailable) && !Told(cov, from, to, Unverified)
  }

  /** The slots of a bucket: `count` of them, each `width` wide, from `start` on. */
  datatype Slots = Slots(start: Time, width: nat, count: nat)

  function SlotAt(s: Slots, k: nat): Time { s.start + s.width * k }

  /** No item starts where slot `k` does. */
  predicate Unseen(s: Slots, seen: Time -> bool, k: nat) { k < s.count && !seen(SlotAt(s, k)) }

  ghost predicate SomeReads(s: Slots, seen: Time -> bool, cov: set<Slice>, q: Status) {
    exists k: nat :: Unseen(s, seen, k) && Reads(cov, SlotAt(s, k), SlotAt(s, k) + s.width, q)
  }

  ghost predicate AllRead(s: Slots, seen: Time -> bool, cov: set<Slice>, q: Status) {
    forall k: nat :: Unseen(s, seen, k) ==> Reads(cov, SlotAt(s, k), SlotAt(s, k) + s.width, q)
  }

  /** Quality: the gravest of what the unseen slots read, where a slot that should have had a trade counts as
      missing. */
  ghost predicate Graded(quality: Status, s: Slots, seen: Time -> bool, cov: set<Slice>) {
    var unavailable, unverified := SomeReads(s, seen, cov, Unavailable), SomeReads(s, seen, cov, Unverified);
    var missing := SomeReads(s, seen, cov, Missing);
    && (quality == Missing <==> missing || (!unavailable && !unverified && SomeReads(s, seen, cov, Available)))
    && (quality == Unavailable <==> unavailable && !missing)
    && (quality == Unverified <==> unverified && !missing && !unavailable)
    && (quality == Available <==> AllRead(s, seen, cov, NoTrade))
  }

  /** Complete: as many items as slots, or fewer and no trade in any slot without one. */
  ghost predicate Completed(complete: bool, s: Slots, seen: Time -> bool, size: nat, cov: set<Slice>) {
    complete <==>
      || size == s.count
      || (size < s.count && (exists k: nat :: Unseen(s, seen, k)) && AllRead(s, seen, cov, NoTrade))
  }

  ghost predicate Judged(v: View, s: Slots, seen: Time -> bool, size: nat, cov: set<Slice>) {
    Graded(v.quality, s, seen, cov) && Completed(v.complete, s, seen, size, cov)
  }

  lemma ToldIs(cov: set<Slice>, from: Time, to: Time, q: Status)
    ensures q in Covering(cov, from, to) <==> Told(cov, from, to, q)
  {}

  lemma ReadsIs(cov: set<Slice>, from: Time, to: Time, q: Status)
    ensures SlotQuality(Covering(cov, from, to)) == q <==> Reads(cov, from, to, q)
  {
    ToldIs(cov, from, to, Missing);
    ToldIs(cov, from, to, Unavailable);
    ToldIs(cov, from, to, Unverified);
    ToldIs(cov, from, to, Available);
    ToldIs(cov, from, to, NoTrade);
  }

  function Observed(seen: set<Time>): Time -> bool { (t: Time) => t in seen }

  /** Slot `k` is unseen and reads `q`. */
  ghost predicate SlotReads(s: Slots, seen: Time -> bool, cov: set<Slice>, q: Status, k: nat) {
    Unseen(s, seen, k) && Reads(cov, SlotAt(s, k), SlotAt(s, k) + s.width, q)
  }

  function LastSlot(s: Slots, n: nat, observed: set<Time>, cov: set<Slice>): seq<Status>
    requires 0 < n
  {
    var from := s.start + s.width * (n - 1);
    if from in observed then [] else [SlotQuality(Covering(cov, from, from + s.width))]
  }

  lemma LastSlotReads(s: Slots, n: nat, observed: set<Time>, cov: set<Slice>, q: Status)
    requires 0 < n <= s.count
    ensures q in LastSlot(s, n, observed, cov) <==> SlotReads(s, Observed(observed), cov, q, n - 1)
  {
    var from := SlotAt(s, n - 1);
    ReadsIs(cov, from, from + s.width, q);
  }

  lemma MissingStep(s: Slots, n: nat, observed: set<Time>, cov: set<Slice>)
    requires 0 < n
    ensures MissingSlots(s.start, s.width, n, observed, cov)
         == MissingSlots(s.start, s.width, n - 1, observed, cov) + LastSlot(s, n, observed, cov)
  {}

  /** A status among those of the unseen slots is read by one of them ... */
  lemma {:induction false} SlotOf(s: Slots, n: nat, observed: set<Time>, cov: set<Slice>, q: Status) returns (k: nat)
    requires n <= s.count && q in MissingSlots(s.start, s.width, n, observed, cov)
    ensures k < n && SlotReads(s, Observed(observed), cov, q, k)
  {
    MissingStep(s, n, observed, cov);
    if q in LastSlot(s, n, observed, cov) {
      LastSlotReads(s, n, observed, cov, q);
      k := n - 1;
    } else {
      k := SlotOf(s, n - 1, observed, cov, q);
    }
  }

  /** ... and what an unseen slot reads is among them. */
  lemma {:induction false} SlotIn(s: Slots, n: nat, observed: set<Time>, cov: set<Slice>, q: Status, k: nat)
    requires k < n <= s.count && SlotReads(s, Observed(observed), cov, q, k)
    ensures q in MissingSlots(s.start, s.width, n, observed, cov)
  {
    MissingStep(s, n, observed, cov);
    if k == n - 1 { LastSlotReads(s, n, observed, cov, q); } else { SlotIn(s, n - 1, observed, cov, q, k); }
  }

  lemma StatusRead(s: Slots, observed: set<Time>, cov: set<Slice>, q: Status)
    ensures q in MissingSlots(s.start, s.width, s.count, observed, cov) <==> SomeReads(s, Observed(observed), cov, q)
  {
    if q in MissingSlots(s.start, s.width, s.count, observed, cov) {
      var k := SlotOf(s, s.count, observed, cov, q);
    }
    if SomeReads(s, Observed(observed), cov, q) {
      var k: nat :| Unseen(s, Observed(observed), k) && Reads(cov, SlotAt(s, k), SlotAt(s, k) + s.width, q);
      SlotIn(s, s.count, observed, cov, q, k);
    }
  }

  /** Every slot reads exactly one status. */
  lemma ReadsOne(cov: set<Slice>, from: Time, to: Time)
    ensures exists q :: Reads(cov, from, to, q)
    ensures forall q, r :: Reads(cov, from, to, q) && Reads(cov, from, to, r) ==> q == r
  {
    var q := SlotQuality(Covering(cov, from, to));
    ReadsIs(cov, from, to, q);
    forall r | Reads(cov, from, to, r) ensures r == q { ReadsIs(cov, from, to, r); }
  }

  predicate OnlyNoTrade(found: seq<Status>) { forall q :: q in found ==> q == NoTrade }

  lemma AllReadOnly(s: Slots, observed: set<Time>, cov: set<Slice>)
    requires AllRead(s, Observed(observed), cov, NoTrade)
    ensures OnlyNoTrade(MissingSlots(s.start, s.width, s.count, observed, cov))
  {
    forall q | q in MissingSlots(s.start, s.width, s.count, observed, cov) ensures q == NoTrade {
      var k := SlotOf(s, s.count, observed, cov, q);
      ReadsOne(cov, SlotAt(s, k), SlotAt(s, k) + s.width);
    }
  }

  lemma OnlyAllRead(s: Slots, observed: set<Time>, cov: set<Slice>)
    requires OnlyNoTrade(MissingSlots(s.start, s.width, s.count, observed, cov))
    ensures AllRead(s, Observed(observed), cov, NoTrade)
  {
    forall k: nat | Unseen(s, Observed(observed), k)
      ensures Reads(cov, SlotAt(s, k), SlotAt(s, k) + s.width, NoTrade)
    {
      ReadsOne(cov, SlotAt(s, k), SlotAt(s, k) + s.width);
      var q :| Reads(cov, SlotAt(s, k), SlotAt(s, k) + s.width, q);
      SlotIn(s, s.count, observed, cov, q, k);
    }
  }

  lemma AllReadIs(s: Slots, observed: set<Time>, cov: set<Slice>)
    ensures AllRead(s, Observed(observed), cov, NoTrade)
       <==> OnlyNoTrade(MissingSlots(s.start, s.width, s.count, observed, cov))
  {
    if AllRead(s, Observed(observed), cov, NoTrade) { AllReadOnly(s, observed, cov); }
    if OnlyNoTrade(MissingSlots(s.start, s.width, s.count, observed, cov)) { OnlyAllRead(s, observed, cov); }
  }

  lemma SomeUnseen(s: Slots, observed: set<Time>, cov: set<Slice>)
    ensures MissingSlots(s.start, s.width, s.count, observed, cov) != []
       <==> exists k: nat :: Unseen(s, Observed(observed), k)
  {
    var m := MissingSlots(s.start, s.width, s.count, observed, cov);
    if m != [] {
      assert m[0] in m;
      var k := SlotOf(s, s.count, observed, cov, m[0]);
    }
    if k: nat :| Unseen(s, Observed(observed), k) {
      ReadsOne(cov, SlotAt(s, k), SlotAt(s, k) + s.width);
      var q :| Reads(cov, SlotAt(s, k), SlotAt(s, k) + s.width, q);
      SlotIn(s, s.count, observed, cov, q, k);
    }
  }

  /** The quality of a candle is what its unseen slots read. */
  lemma QualityGraded(s: Slots, observed: set<Time>, cov: set<Slice>)
    ensures Graded(WorstQuality(MissingSlots(s.start, s.width, s.count, observed, cov)), s, Observed(observed), cov)
  {
    StatusRead(s, observed, cov, Missing);
    StatusRead(s, observed, cov, Unavailable);
    StatusRead(s, observed, cov, Unverified);
    StatusRead(s, observed, cov, Available);
    AllReadIs(s, observed, cov);
  }

  lemma GroupJudged(b: Time, o: seq<Bar>, slot: nat, n: nat, cov: set<Slice>)
    requires o != []
    ensures Judged(GroupView(b, o, slot, n, cov), Slots(b, slot, n), Observed(Times(o)), |o|, cov)
  {
    var s := Slots(b, slot, n);
    QualityGraded(s, Times(o), cov);
    AllReadIs(s, Times(o), cov);
    SomeUnseen(s, Times(o), cov);
  }
}
