/** Canonical hashes of dataset members: the streaming `CanonicalJsonArrayDigest` and the batch
    `canonical_dataset_hashes`. Hashing is kept as the bytes hashed; the canonical encoding of one payload
    (`encode`) and the text of a time (`stamp`) are parameters. */
module CanonicalDigest {
  import opened Ordering

  datatype Member = Member(kind: string, exchange: string, market: string, unit: Option<string>,
                           at: int, knowledgeAt: int, sourceAsOf: int, content: string, quality: string,
                           version: string, definition: Option<string>, sourceRef: int)

  /** What is hashed of a member: all but its database id. */
  datatype Payload = Payload(kind: string, exchange: string, market: string, unit: Option<string>,
                             at: int, knowledgeAt: int, sourceAsOf: int, content: string, quality: string,
                             version: string, definition: Option<string>)

  const KINDS := {"candle", "indicator", "market_statistic", "microstructure"}
  const QUALITIES := {"available", "no_trade", "missing", "unavailable", "unverified"}

  predicate IsHash(s: string) { |s| == 64 && forall c :: c in s ==> '0' <= c <= '9' || 'a' <= c <= 'f' }

  predicate ValidMember(m: Member) {
    && IsHash(m.content) && (m.definition.Some? ==> IsHash(m.definition.value))
    && m.kind in KINDS && m.quality in QUALITIES
  }

  function PayloadOf(m: Member): Payload {
    Payload(m.kind, m.exchange, m.market, m.unit, m.at, m.knowledgeAt, m.sourceAsOf, m.content, m.quality, m.version,
            m.definition)
  }

  function Payloads(ms: seq<Member>): seq<Payload> {
    if ms == [] then [] else Payloads(ms[..|ms| - 1]) + [PayloadOf(ms[|ms| - 1])]
  }

  // ---------------------------------------------------------------- keys

  /** `str` of an optional text. */
  function Text(s: Option<string>): string { if s.Some? then s.value else "None" }

  /** The natural key as texts, by which members are ordered. */
  function NaturalKey(p: Payload, stamp: int -> string): seq<string> {
    [p.kind, p.exchange, p.market, Text(p.unit), Text(p.definition), p.version, stamp(p.at)]
  }

  function SortKey(p: Payload, stamp: int -> string): seq<string> { NaturalKey(p, stamp) + [p.content] }

  function BySortKey(stamp: int -> string): (Payload, Payload) -> bool {
    (p: Payload, q: Payload) => ListLeq(SortKey(p, stamp), SortKey(q, stamp))
  }

  /** The natural key as values, by which duplicates are found. */
  predicate SameMember(p: Payload, q: Payload) {
    p.kind == q.kind && p.exchange == q.exchange && p.market == q.market && p.unit == q.unit
    && p.definition == q.definition
    && p.version == q.version && p.at == q.at
  }

  lemma BySortKeyTotal(stamp: int -> string)
    ensures TotalPreorder(BySortKey(stamp))
  {
    var leq := BySortKey(stamp);
    forall p, q ensures leq(p, q) || leq(q, p) { ListTotal(SortKey(p, stamp), SortKey(q, stamp)); }
    forall p, q, r | leq(p, q) && leq(q, r) ensures leq(p, r) {
      ListTransitive(SortKey(p, stamp), SortKey(q, stamp), SortKey(r, stamp));
    }
  }

  // ---------------------------------------------------------------- bytes

  function Body(ps: seq<Payload>, encode: Payload -> string): string {
    if ps == [] then "" else
      Body(ps[..|ps| - 1], encode) + (if |ps| > 1 then "," else "") + encode(ps[|ps| - 1])
  }

  /** The canonical encoding of a whole array. */
  function ArrayBytes(ps: seq<Payload>, encode: Payload -> string): string { "[" + Body(ps, encode) + "]" }

  // ---------------------------------------------------------------- batch

  function Sorted(ps: seq<Payload>, stamp: int -> string): seq<Payload> { StableSort(ps, BySortKey(stamp)) }

  predicate Distinct(ps: seq<Payload>) { forall i, j :: 0 <= i < j < |ps| ==> !SameMember(ps[i], ps[j]) }

  /** The manifest bytes of `canonical_dataset_hashes`; an invalid or repeated member is an error. */
  function Batch(ms: seq<Member>, stamp: int -> string, encode: Payload -> string): Option<string> {
    if (exists m :: m in ms && !ValidMember(m)) then None else
      var sorted := Sorted(Payloads(ms), stamp);
      if Distinct(sorted) then Some(ArrayBytes(sorted, encode)) else None
  }

  // ---------------------------------------------------------------- streaming

  datatype Digest = Digest(fed: string, count: nat, previous: Option<seq<string>>)

  const EMPTY := Digest("[", 0, None)

  function Added(d: Digest, encoded: string, key: seq<string>): Option<Digest> {
    if d.previous.Some? && ListLeq(key, d.previous.value) then None
    else Some(Digest(d.fed + (if d.count > 0 then "," else "") + encoded, d.count + 1, Some(key)))
  }

  class CanonicalJsonArrayDigest {
    var fed: string
    var count: nat
    var previousKey: Option<seq<string>>

    function Value(): Digest
      reads this
    {
      Digest(fed, count, previousKey)
    }

    constructor ()
      ensures Value() == EMPTY
    {
      fed, count, previousKey := "[", 0, None;
    }

    /** A key that does not exceed the one before it is refused and nothing changes. */
    method AddEncoded(encoded: string, key: seq<string>) returns (ok: bool)
      modifies this
      ensures ok <==> Added(old(Value()), encoded, key).Some?
      ensures Value() == if ok then Added(old(Value()), encoded, key).value else old(Value())
    {
      if previousKey.Some? && ListLeq(key, previousKey.value) { return false; }
      if count > 0 { fed := fed + ","; }
      fed := fed + encoded;
      count := count + 1;
      previousKey := Some(key);
      ok := true;
    }

    method AddCanonicalMember(m: Member, stamp: int -> string, encode: Payload -> string) returns (ok: bool)
      modifies this
      ensures ok <==> StepStream(Some(old(Value())), m, stamp, encode).Some?
      ensures Value() == if ok then StepStream(Some(old(Value())), m, stamp, encode).value else old(Value())
    {
      if !ValidMember(m) { return false; }
      var payload := PayloadOf(m);
      var sortKey := SortKey(payload, stamp);
      assert sortKey[..|sortKey| - 1] == NaturalKey(payload, stamp);
      ok := AddEncoded(encode(payload), sortKey[..|sortKey| - 1]);
    }

    /** What the digest stands for now: adding may go on afterwards. */
    method HashedBytes() returns (bytes: string)
      ensures bytes == Value().fed + "]"
    {
      bytes := fed + "]";
    }
  }

  function StepStream(d: Option<Digest>, m: Member, stamp: int -> string, encode: Payload -> string): Option<Digest> {
    if d == None || !ValidMember(m) then None else Added(d.value, encode(PayloadOf(m)), NaturalKey(PayloadOf(m), stamp))
  }

  /** The digest after a list of members, if all were accepted. */
  function Stream(ms: seq<Member>, stamp: int -> string, encode: Payload -> string): Option<Digest> {
    if ms == [] then Some(EMPTY) else StepStream(Stream(ms[..|ms| - 1], stamp, encode), ms[|ms| - 1], stamp, encode)
  }

  // ---------------------------------------------------------------- what streaming accepts and feeds

  /** Keys strictly increase from each member to the next. */
  predicate Ascends(ps: seq<Payload>, stamp: int -> string) {
    forall i :: 0 < i < |ps| ==> !ListLeq(NaturalKey(ps[i], stamp), NaturalKey(ps[i - 1], stamp))
  }

  lemma {:induction false} PayloadsAt(ms: seq<Member>)
    ensures |Payloads(ms)| == |ms| && forall i :: 0 <= i < |ms| ==> Payloads(ms)[i] == PayloadOf(ms[i])
  {
    if ms != [] { PayloadsAt(ms[..|ms| - 1]); }
  }

  /** The key of `p` exceeds that of the last payload. */
  predicate Continues(ps: seq<Payload>, p: Payload, stamp: int -> string) {
    ps != [] ==> !ListLeq(NaturalKey(p, stamp), NaturalKey(ps[|ps| - 1], stamp))
  }

  predicate AllValid(ms: seq<Member>) { forall i :: 0 <= i < |ms| ==> ValidMember(ms[i]) }

  /** The digest that has been fed the payloads `ps`. */
  function FedDigest(ps: seq<Payload>, stamp: int -> string, encode: Payload -> string): Digest {
    Digest("[" + Body(ps, encode), |ps|, if ps == [] then None else Some(NaturalKey(ps[|ps| - 1], stamp)))
  }

  lemma StreamStep(ps: seq<Payload>, m: Member, stamp: int -> string, encode: Payload -> string)
    ensures var r := StepStream(Some(FedDigest(ps, stamp, encode)), m, stamp, encode); var all := ps + [PayloadOf(m)];
      && (r.Some? <==> ValidMember(m) && Continues(ps, PayloadOf(m), stamp))
      && (r.Some? ==> r.value == FedDigest(all, stamp, encode))
  {
    BodySnoc(ps, PayloadOf(m), encode);
    var d, e := "[" + Body(ps, encode), if |ps| > 0 then "," else "";
    assert d + e + encode(PayloadOf(m)) == "[" + (Body(ps, encode) + e + encode(PayloadOf(m)));
  }

  lemma StreamNext(front: seq<Member>, last: Member, stamp: int -> string, encode: Payload -> string)
    requires Stream(front, stamp, encode) == Accepted(front, stamp, encode)
    ensures StepStream(Stream(front, stamp, encode), last, stamp, encode) == Accepted(front + [last], stamp, encode)
  {
    PayloadsSnoc(front, last);
    StreamStep(Payloads(front), last, stamp, encode);
    AscendsSnoc(Payloads(front), PayloadOf(last), stamp);
    assert AllValid(front + [last]) <==> AllValid(front) && ValidMember(last);
  }

  /** Valid members with strictly increasing keys, and what has then been fed: the canonical encoding of their
      array, but for the closing bracket. */
  function Accepted(ms: seq<Member>, stamp: int -> string, encode: Payload -> string): Option<Digest> {
    if AllValid(ms) && Ascends(Payloads(ms), stamp) then Some(FedDigest(Payloads(ms), stamp, encode)) else None
  }

  /** Streaming accepts exactly those, and feeds exactly that. */
  lemma {:induction false} StreamIs(ms: seq<Member>, stamp: int -> string, encode: Payload -> string)
    ensures Stream(ms, stamp, encode) == Accepted(ms, stamp, encode)
  {
    if ms != [] {
      var front, last := ms[..|ms| - 1], ms[|ms| - 1];
      StreamIs(front, stamp, encode);
      StreamNext(front, last, stamp, encode);
      assert ms == front + [last];
    } else {
      assert "[" + Body([], encode) == "[";
    }
  }

  lemma BodySnoc(ps: seq<Payload>, p: Payload, encode: Payload -> string)
    ensures Body(ps + [p], encode) == Body(ps, encode) + (if ps != [] then "," else "") + encode(p)
  {
    var all := ps + [p];
    assert all[..|all| - 1] == ps;
  }

  lemma AscendsSnoc(ps: seq<Payload>, p: Payload, stamp: int -> string)
    ensures Ascends(ps + [p], stamp) <==> Ascends(ps, stamp) && Continues(ps, p, stamp)
  {
    var all := ps + [p];
    if Ascends(all, stamp) {
      forall i | 0 < i < |ps| ensures !ListLeq(NaturalKey(ps[i], stamp), NaturalKey(ps[i - 1], stamp)) {
        assert all[i] == ps[i] && all[i - 1] == ps[i - 1];
      }
      assert ps != [] ==> all[|ps|] == p && all[|ps| - 1] == ps[|ps| - 1];
    }
  }

  // ---------------------------------------------------------------- streaming is the batch

  lemma {:induction false} AscendsApart(ps: seq<Payload>, stamp: int -> string, i: nat, j: nat)
    requires Ascends(ps, stamp) && i < j < |ps|
    ensures !ListLeq(NaturalKey(ps[j], stamp), NaturalKey(ps[i], stamp))
    decreases j
  {
    var a, b := NaturalKey(ps[i], stamp), NaturalKey(ps[j], stamp);
    if i < j - 1 {
      AscendsApart(ps, stamp, i, j - 1);
      var c := NaturalKey(ps[j - 1], stamp);
      ListTotal(c, b);
      if ListLeq(b, a) { ListTransitive(c, b, a); }
    }
  }

  lemma AscendsSorted(ps: seq<Payload>, stamp: int -> string)
    requires Ascends(ps, stamp)
    ensures SortedBy(ps, BySortKey(stamp)) && Distinct(ps)
    ensures forall p, q :: p in ps && q in ps && BySortKey(stamp)(p, q) && BySortKey(stamp)(q, p) ==> p == q
  {
    forall i, j | 0 <= i < j < |ps|
      ensures BySortKey(stamp)(ps[i], ps[j]) && !SameMember(ps[i], ps[j])
      ensures SortKey(ps[i], stamp) != SortKey(ps[j], stamp)
    {
      AscendsApart(ps, stamp, i, j);
      KeysApart(ps[i], ps[j], stamp);
    }
    forall p, q | p in ps && q in ps && BySortKey(stamp)(p, q) && BySortKey(stamp)(q, p) ensures p == q {
      ListTotal(SortKey(p, stamp), SortKey(q, stamp));
      var i :| 0 <= i < |ps| && ps[i] == p;
      var j :| 0 <= j < |ps| && ps[j] == q;
    }
  }

  lemma KeysApart(p: Payload, q: Payload, stamp: int -> string)
    requires !ListLeq(NaturalKey(q, stamp), NaturalKey(p, stamp))
    ensures BySortKey(stamp)(p, q) && !SameMember(p, q) && SortKey(p, stamp) != SortKey(q, stamp)
  {
    var a, b := NaturalKey(p, stamp), NaturalKey(q, stamp);
    ListExtend(a, b, [p.content], [q.content]);
    ListTotal(a, b);
    ListTotal(a, a);
    assert SortKey(p, stamp)[..7] == a && SortKey(q, stamp)[..7] == b;
  }

  lemma {:induction false} PayloadsMultiset(ms: seq<Member>, ns: seq<Member>)
    requires multiset(ms) == multiset(ns)
    ensures multiset(Payloads(ms)) == multiset(Payloads(ns))
    decreases |ms|
  {
    assert |multiset(ms)| == |ms| && |multiset(ns)| == |ns|;
    if ms != [] {
      var front, last := ms[..|ms| - 1], ms[|ms| - 1];
      var k := FindMember(ns, last, ms);
      RemoveMember(ms, front, last, ns, k);
      PayloadsMultiset(front, ns[..k] + ns[k + 1..]);
      PayloadsWithout(ns, k);
      assert Payloads(ms) == Payloads(front) + [PayloadOf(last)];
    }
  }

  lemma FindMember(ns: seq<Member>, m: Member, ms: seq<Member>) returns (k: nat)
    requires multiset(ms) == multiset(ns) && m in ms
    ensures k < |ns| && ns[k] == m
  {
    assert m in multiset(ns);
    k :| 0 <= k < |ns| && ns[k] == m;
  }

  lemma RemoveMember(ms: seq<Member>, front: seq<Member>, last: Member, ns: seq<Member>, k: nat)
    requires multiset(ms) == multiset(ns) && ms == front + [last] && k < |ns| && ns[k] == last
    ensures multiset(front) == multiset(ns[..k] + ns[k + 1..])
  {
    var rest := ns[..k] + ns[k + 1..];
    Rejoin(ns, k);
    MiddleMultiset(ns[..k], last, ns[k + 1..]);
    assert multiset(ns) == multiset(rest) + multiset{last};
    assert multiset(ms) == multiset(front) + multiset{last};
    assert multiset(front) == multiset(ms) - multiset{last};
    assert multiset(rest) == multiset(ns) - multiset{last};
  }

  lemma {:induction false} PayloadsConcat(a: seq<Member>, b: seq<Member>)
    ensures Payloads(a + b) == Payloads(a) + Payloads(b)
    decreases |b|
  {
    if b == [] {
      assert a + b == a;
    } else {
      var all := a + b;
      assert all[..|all| - 1] == a + b[..|b| - 1];
      PayloadsConcat(a, b[..|b| - 1]);
    }
  }

  lemma PayloadsWithout(ns: seq<Member>, k: nat)
    requires k < |ns|
    ensures multiset(Payloads(ns)) == multiset(Payloads(ns[..k] + ns[k + 1..])) + multiset{PayloadOf(ns[k])}
  {
    Rejoin(ns, k);
    PayloadsMiddle(ns[..k], ns[k], ns[k + 1..]);
  }

  lemma PayloadsMiddle(a: seq<Member>, m: Member, b: seq<Member>)
    ensures multiset(Payloads(a + [m] + b)) == multiset(Payloads(a + b)) + multiset{PayloadOf(m)}
  {
    PayloadsThree(a, m, b);
    PayloadsConcat(a, b);
    MiddleMultiset(Payloads(a), PayloadOf(m), Payloads(b));
  }

  lemma PayloadsThree(a: seq<Member>, m: Member, b: seq<Member>)
    ensures Payloads(a + [m] + b) == Payloads(a) + [PayloadOf(m)] + Payloads(b)
  {
    PayloadsConcat(a + [m], b);
    PayloadsSnoc(a, m);
  }

  lemma PayloadsSnoc(a: seq<Member>, m: Member)
    ensures Payloads(a + [m]) == Payloads(a) + [PayloadOf(m)]
  {
    var all := a + [m];
    assert all[..|all| - 1] == a;
  }

  /** Streaming refines the batch: whatever list of members the digest accepts, the bytes it hashes are those
      the batch hashes for any permutation of them. */
  lemma StreamEqualsBatch(ms: seq<Member>, ns: seq<Member>, stamp: int -> string, encode: Payload -> string)
    requires Stream(ms, stamp, encode).Some? && multiset(ns) == multiset(ms)
    ensures Batch(ns, stamp, encode) == Some(Stream(ms, stamp, encode).value.fed + "]")
  {
    StreamIs(ms, stamp, encode);
    var ps, qs := Payloads(ms), Payloads(ns);
    PayloadsMultiset(ns, ms);
    AscendsSorted(ps, stamp);
    BySortKeyTotal(stamp);
    StableSortSorted(qs, BySortKey(stamp));
    SortedUnique(ps, Sorted(qs, stamp), BySortKey(stamp));
    forall m | m in ns ensures ValidMember(m) {
      assert m in multiset(ms);
      var i :| 0 <= i < |ms| && ms[i] == m;
    }
  }

  /** Database ids do not matter: members that differ only in them stream and batch alike. */
  lemma SurrogateIdsIrrelevant(ms: seq<Member>, ns: seq<Member>, stamp: int -> string, encode: Payload -> string)
    requires |ms| == |ns| && forall i :: 0 <= i < |ms| ==> ns[i] == ms[i].(sourceRef := ns[i].sourceRef)
    ensures Stream(ns, stamp, encode) == Stream(ms, stamp, encode)
    ensures Batch(ns, stamp, encode) == Batch(ms, stamp, encode)
  {
    forall i | 0 <= i < |ms|
      ensures PayloadOf(ms[i]) == PayloadOf(ns[i]) && (ValidMember(ms[i]) <==> ValidMember(ns[i]))
    {}
    SameStream(ms, ns, stamp, encode);
    SamePayloads(ms, ns);
    if exists m :: m in ms && !ValidMember(m) { InvalidToo(ms, ns); }
    if exists m :: m in ns && !ValidMember(m) { InvalidToo(ns, ms); }
  }

  lemma SamePayloads(ms: seq<Member>, ns: seq<Member>)
    requires |ms| == |ns| && forall i :: 0 <= i < |ms| ==> PayloadOf(ms[i]) == PayloadOf(ns[i])
    ensures Payloads(ms) == Payloads(ns)
  {
    PayloadsAt(ms);
    PayloadsAt(ns);
  }

  lemma InvalidToo(ms: seq<Member>, ns: seq<Member>)
    requires |ms| == |ns| && (forall i :: 0 <= i < |ms| ==> (ValidMember(ms[i]) <==> ValidMember(ns[i])))
    requires exists m :: m in ms && !ValidMember(m)
    ensures exists m :: m in ns && !ValidMember(m)
  {
    var m :| m in ms && !ValidMember(m);
    var i :| 0 <= i < |ms| && ms[i] == m;
    assert ns[i] in ns;
  }

  lemma {:induction false} SameStream(ms: seq<Member>, ns: seq<Member>, stamp: int -> string, encode: Payload -> string)
    requires |ms| == |ns|
    requires forall i :: 0 <= i < |ms| ==>
      PayloadOf(ms[i]) == PayloadOf(ns[i]) && (ValidMember(ms[i]) <==> ValidMember(ns[i]))
    ensures Stream(ns, stamp, encode) == Stream(ms, stamp, encode)
    decreases |ms|
  {
    if ms != [] { SameStream(ms[..|ms| - 1], ns[..|ns| - 1], stamp, encode); }
  }

  // ---------------------------------------------------------------- what is hashed, field by field

  /** Everything but the database id is hashed: equal payloads are those of members that differ in nothing else. */
  lemma SamePayloadIff(m: Member, n: Member)
    ensures PayloadOf(m) == PayloadOf(n) <==> n == m.(sourceRef := n.sourceRef)
    ensures var p := PayloadOf(m);
      Member(p.kind, p.exchange, p.market, p.unit, p.at, p.knowledgeAt, p.sourceAsOf, p.content, p.quality, p.version,
             p.definition, m.sourceRef) == m
  {}

  /** `rest` decides between equal texts. */
  predicate ThenBy(a: string, b: string, rest: bool) { if a == b then rest else TextLeq(a, b) }

  lemma ListFirst(a: seq<string>, b: seq<string>, x: string, y: string)
    ensures ListLeq([x] + a, [y] + b) <==> ThenBy(x, y, ListLeq(a, b))
  {
    assert ([x] + a)[1..] == a && ([y] + b)[1..] == b;
  }

  function LaterKey(p: Payload, stamp: int -> string): seq<string> {
    [Text(p.definition), p.version, stamp(p.at), p.content]
  }

  lemma KeySplits(p: Payload, stamp: int -> string)
    ensures SortKey(p, stamp) == [p.kind] + ([p.exchange] + ([p.market] + ([Text(p.unit)] + LaterKey(p, stamp))))
    ensures LaterKey(p, stamp) == [Text(p.definition)] + ([p.version] + ([stamp(p.at)] + ([p.content] + [])))
  {}

  lemma LaterOrder(p: Payload, q: Payload, stamp: int -> string)
    ensures ListLeq(LaterKey(p, stamp), LaterKey(q, stamp)) <==>
      ThenBy(Text(p.definition), Text(q.definition), ThenBy(p.version, q.version,
        ThenBy(stamp(p.at), stamp(q.at), ThenBy(p.content, q.content, true))))
  {
    KeySplits(p, stamp);
    KeySplits(q, stamp);
    ListFirst([], [], p.content, q.content);
    ListFirst([p.content] + [], [q.content] + [], stamp(p.at), stamp(q.at));
    ListFirst([stamp(p.at)] + ([p.content] + []), [stamp(q.at)] + ([q.content] + []), p.version, q.version);
    ListFirst([p.version] + ([stamp(p.at)] + ([p.content] + [])), [q.version] + ([stamp(q.at)] + ([q.content] + [])),
              Text(p.definition), Text(q.definition));
  }

  /** Members are hashed in the order of kind, exchange, market, unit, definition, version, time and content. */
  lemma HashOrder(p: Payload, q: Payload, stamp: int -> string)
    ensures BySortKey(stamp)(p, q) <==>
      ThenBy(p.kind, q.kind, ThenBy(p.exchange, q.exchange, ThenBy(p.market, q.market,
        ThenBy(Text(p.unit), Text(q.unit), ThenBy(Text(p.definition), Text(q.definition),
          ThenBy(p.version, q.version, ThenBy(stamp(p.at), stamp(q.at), ThenBy(p.content, q.content, true))))))))
  {
    var a, b := LaterKey(p, stamp), LaterKey(q, stamp);
    KeySplits(p, stamp);
    KeySplits(q, stamp);
    LaterOrder(p, q, stamp);
    ListFirst(a, b, Text(p.unit), Text(q.unit));
    ListFirst([Text(p.unit)] + a, [Text(q.unit)] + b, p.market, q.market);
    ListFirst([p.market] + ([Text(p.unit)] + a), [q.market] + ([Text(q.unit)] + b), p.exchange, q.exchange);
    ListFirst([p.exchange] + ([p.market] + ([Text(p.unit)] + a)), [q.exchange] + ([q.market] + ([Text(q.unit)] + b)),
              p.kind, q.kind);
  }

  /** The texts `parts`, from the first on, with commas between them. */
  function Commas(parts: seq<string>): string {
    if parts == [] then "" else if |parts| == 1 then parts[0] else parts[0] + "," + Commas(parts[1..])
  }

  function Encoded(ps: seq<Payload>, encode: Payload -> string): seq<string> {
    seq(|ps|, i requires 0 <= i < |ps| => encode(ps[i]))
  }

  lemma {:induction false} CommasSnoc(parts: seq<string>, last: string)
    ensures Commas(parts + [last]) == Commas(parts) + (if parts != [] then "," else "") + last
  {
    if parts != [] {
      var all := parts + [last];
      assert all[1..] == parts[1..] + [last];
      CommasSnoc(parts[1..], last);
      if |parts| > 1 {
        assert Commas(all) == parts[0] + "," + (Commas(parts[1..]) + "," + last);
        assert Commas(parts) == parts[0] + "," + Commas(parts[1..]);
      }
    }
  }

  /** The bytes of an array are its members' encodings, in order, with commas between them and brackets around. */
  lemma {:induction false} BodyIsCommas(ps: seq<Payload>, encode: Payload -> string)
    ensures Body(ps, encode) == Commas(Encoded(ps, encode))
    decreases |ps|
  {
    if ps != [] {
      var front, last := ps[..|ps| - 1], ps[|ps| - 1];
      BodyIsCommas(front, encode);
      assert Encoded(ps, encode) == Encoded(front, encode) + [encode(last)];
      CommasSnoc(Encoded(front, encode), encode(last));
    }
  }

  /** Sixty-four lower-case hexadecimal digits. */
  predicate HexDigest(s: string) {
    |s| == 64 && forall i :: 0 <= i < |s| ==> s[i] in "0123456789abcdef"
  }

  lemma HexIs(s: string)
    ensures IsHash(s) <==> HexDigest(s)
  {
    if IsHash(s) {
      forall i | 0 <= i < |s| ensures s[i] in "0123456789abcdef" {
        assert s[i] in s;
        HexDigit(s[i]);
      }
    }
    if HexDigest(s) {
      forall c | c in s ensures '0' <= c <= '9' || 'a' <= c <= 'f' { HexDigit(c); }
    }
  }

  lemma HexDigit(c: char)
    ensures c in "0123456789abcdef" <==> '0' <= c <= '9' || 'a' <= c <= 'f'
  {
    var digits := "0123456789abcdef";
    if '0' <= c <= '9' { assert digits[c as int - '0' as int] == c; }
    if 'a' <= c <= 'f' { assert digits[10 + (c as int - 'a' as int)] == c; }
  }

  /** A member is refused exactly when its content hash, or its definition hash if it has one, is no digest, or its kind
      or quality is unknown. */
  lemma FirstMember(m: Member, stamp: int -> string, encode: Payload -> string)
    ensures Stream([m], stamp, encode).Some? <==>
      && HexDigest(m.content) && (m.definition == None || HexDigest(m.definition.value))
      && m.kind in ["candle", "indicator", "market_statistic", "microstructure"]
      && m.quality in ["available", "no_trade", "missing", "unavailable", "unverified"]
  {
    StreamIs([m], stamp, encode);
    PayloadsAt([m]);
    HexIs(m.content);
    if m.definition.Some? { HexIs(m.definition.value); }
  }
}
