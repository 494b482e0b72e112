/** Where streaming and batch part ways. */
module DigestLimits {
  import opened Ordering
  import opened CanonicalDigest

  // ---------------------------------------------------------------- the unit called "None"

  /** Different members with the same key texts: one has no unit, the other's unit is the text "None". */
  predicate Clash(p: Payload, q: Payload) {
    && p.kind == q.kind && p.exchange == q.exchange && p.market == q.market && p.definition == q.definition
    && p.version == q.version && p.at == q.at
    && ((p.unit == None && q.unit == Some("None")) || (q.unit == None && p.unit == Some("None")))
  }

  ghost predicate Injective(stamp: int -> string) { forall a, b :: stamp(a) == stamp(b) ==> a == b }

  predicate ProperDefinition(p: Payload) { p.definition.Some? ==> IsHash(p.definition.value) }

  lemma SameTexts(p: Payload, q: Payload, stamp: int -> string)
    requires Injective(stamp) && ProperDefinition(p) && ProperDefinition(q)
    ensures NaturalKey(p, stamp) == NaturalKey(q, stamp) <==> SameMember(p, q) || Clash(p, q)
  {
    var a, b := NaturalKey(p, stamp), NaturalKey(q, stamp);
    assert |"None"| == 4;
    if a == b {
      assert a[0] == b[0] && a[1] == b[1] && a[2] == b[2] && a[3] == b[3];
      assert a[4] == b[4] && a[5] == b[5] && a[6] == b[6];
    }
  }

  lemma {:induction false} ListPrefix(a: seq<string>, b: seq<string>, x: seq<string>, y: seq<string>)
    requires |a| == |b| && ListLeq(a + x, b + y)
    ensures ListLeq(a, b)
  {
    if a != [] {
      assert (a + x)[1..] == a[1..] + x && (b + y)[1..] == b[1..] + y;
      if a[0] == b[0] { ListPrefix(a[1..], b[1..], x, y); }
    }
  }

  ghost predicate ClashFree(ps: seq<Payload>) { forall i, j :: 0 <= i < j < |ps| ==> !Clash(ps[i], ps[j]) }

  lemma ClashFreeAscends(ps: seq<Payload>, stamp: int -> string)
    requires Injective(stamp) && SortedBy(ps, BySortKey(stamp)) && Distinct(ps)
    requires forall i :: 0 <= i < |ps| ==> ProperDefinition(ps[i])
    ensures Ascends(ps, stamp) <==> ClashFree(ps)
  {
    if ClashFree(ps) {
      forall i | 0 < i < |ps| ensures !ListLeq(NaturalKey(ps[i], stamp), NaturalKey(ps[i - 1], stamp)) {
        var p, q := ps[i - 1], ps[i];
        assert BySortKey(stamp)(p, q) && !SameMember(p, q) && !Clash(p, q);
        ListPrefix(NaturalKey(p, stamp), NaturalKey(q, stamp), [p.content], [q.content]);
        SameTexts(p, q, stamp);
        ListTotal(NaturalKey(p, stamp), NaturalKey(q, stamp));
      }
    }
    if Ascends(ps, stamp) {
      forall i, j | 0 <= i < j < |ps| ensures !Clash(ps[i], ps[j]) {
        AscendsApart(ps, stamp, i, j);
        SameTexts(ps[i], ps[j], stamp);
        ListTotal(NaturalKey(ps[i], stamp), NaturalKey(ps[i], stamp));
      }
    }
  }

  /** Members the batch accepts, streamed in canonical order, are accepted exactly when no member without a unit
      meets one whose unit is called "None" and is otherwise keyed alike. */
  lemma StreamAcceptsBatchIff(ms: seq<Member>, ns: seq<Member>, stamp: int -> string, encode: Payload -> string)
    requires Injective(stamp) && Batch(ms, stamp, encode).Some?
    requires multiset(ns) == multiset(ms) && Payloads(ns) == Sorted(Payloads(ms), stamp)
    ensures Stream(ns, stamp, encode).Some? <==> ClashFree(Payloads(ns))
  {
    StreamIs(ns, stamp, encode);
    PayloadsAt(ns);
    BySortKeyTotal(stamp);
    StableSortSorted(Payloads(ms), BySortKey(stamp));
    forall i | 0 <= i < |ns| ensures ValidMember(ns[i]) && ProperDefinition(Payloads(ns)[i]) {
      assert ns[i] in multiset(ns);
      assert ns[i] in ms;
    }
    ClashFreeAscends(Payloads(ns), stamp);
  }

  /** Such a pair exists for every valid member without a unit: the batch takes it, the stream takes neither order. */
  lemma NoneClashes(m: Member, stamp: int -> string, encode: Payload -> string)
    requires Injective(stamp) && ValidMember(m) && m.unit == None
    ensures var n := m.(unit := Some("None"));
      && Batch([m, n], stamp, encode).Some? && Stream([m, n], stamp, encode) == None
      && Stream([n, m], stamp, encode) == None
  {
    var n := m.(unit := Some("None"));
    SameTexts(PayloadOf(m), PayloadOf(n), stamp);
    StreamRefuses(m, n, stamp, encode);
    StreamRefuses(n, m, stamp, encode);
    BatchTakesPair(m, n, stamp, encode);
  }

  lemma PairPayloads(m: Member, n: Member)
    ensures Payloads([m, n]) == [PayloadOf(m), PayloadOf(n)]
  {
    PayloadsAt([m, n]);
  }

  lemma StreamRefuses(m: Member, n: Member, stamp: int -> string, encode: Payload -> string)
    requires NaturalKey(PayloadOf(m), stamp) == NaturalKey(PayloadOf(n), stamp)
    ensures Stream([m, n], stamp, encode) == None
  {
    PairPayloads(m, n);
    StreamIs([m, n], stamp, encode);
    NotAscending(PayloadOf(m), PayloadOf(n), stamp);
  }

  lemma BatchTakesPair(m: Member, n: Member, stamp: int -> string, encode: Payload -> string)
    requires ValidMember(m) && ValidMember(n) && !SameMember(PayloadOf(m), PayloadOf(n))
    ensures Batch([m, n], stamp, encode).Some?
  {
    PairPayloads(m, n);
    PairDistinct(PayloadOf(m), PayloadOf(n), stamp);
    assert forall x :: x in [m, n] ==> x == m || x == n;
  }

  lemma NotAscending(p: Payload, q: Payload, stamp: int -> string)
    requires NaturalKey(p, stamp) == NaturalKey(q, stamp)
    ensures !Ascends([p, q], stamp)
  {
    ListTotal(NaturalKey(p, stamp), NaturalKey(p, stamp));
    assert [p, q][1] == q && [p, q][0] == p;
  }

  lemma PairDistinct(p: Payload, q: Payload, stamp: int -> string)
    requires !SameMember(p, q)
    ensures Distinct(Sorted([p, q], stamp))
  {
    var s, leq := [p, q], BySortKey(stamp);
    assert s[1..] == [q] && s[1..][1..] == [];
    assert StableSort(s, leq) == Insert(p, StableSort(s[1..], leq), leq);
    assert StableSort(s[1..], leq) == Insert(q, [], leq) == [q];
    assert [q][1..] == [];
    assert Insert(p, [q], leq) == [p, q] || Insert(p, [q], leq) == [q, p];
  }
}
