/** The sequenced realtime stream: the server's envelope builder (`RealtimeEnvelopeBuilder`), a channel that
    keeps order but may drop or repeat messages, and the client's gap-detecting tracker
    (`consumeRealtimeEnvelope`). */
module RealtimeStream {
  import opened Ordering

  datatype Kind = Subscribed | Event | Heartbeat | SnapshotRequired | SlowConsumer | Error

  datatype Envelope<P> = Envelope(topic: string, scope: string, kind: Kind, sequence: int, payload: P)

  /** Messages that take a new sequence number. */
  predicate Numbered(k: Kind) { k == Subscribed || k == Event }

  // ---------------------------------------------------------------- the server

  class EnvelopeBuilder<P> {
    const topic: string
    const scope: string
    const snapshotVersion: string
    var sequence: int

    constructor (topic: string, scope: string, snapshotVersion: string)
      ensures this.topic == topic && this.scope == scope && this.snapshotVersion == snapshotVersion && sequence == 0
    {
      this.topic, this.scope, this.snapshotVersion := topic, scope, snapshotVersion;
      sequence := 0;
    }

    method Make(kind: Kind, payload: P, increment: Option<bool>) returns (e: Envelope<P>)
      modifies this
      ensures sequence == old(sequence) + if (if increment.Some? then increment.value else Numbered(kind)) then 1 else 0
      ensures e == Envelope(topic, scope, kind, sequence, payload)
    {
      var counts := if increment.Some? then increment.value else Numbered(kind);
      if counts { sequence := sequence + 1; }
      e := Envelope(topic, scope, kind, sequence, payload);
    }

    /** A cursor of another subscription or snapshot version is refused and changes nothing. */
    method ResumeFrom(topic: string, scope: string, version: string, at: int) returns (ok: bool)
      modifies this
      ensures ok <==> topic == this.topic && scope == this.scope && version == snapshotVersion
      ensures sequence == if ok then at else old(sequence)
    {
      if topic != this.topic || scope != this.scope || version != snapshotVersion { return false; }
      sequence := at;
      ok := true;
    }
  }

  // ---------------------------------------------------------------- the client

  /** What the tracker knows of one stream. */
  datatype Client = Client(last: Option<int>, paused: bool)

  /** A tracker that has seen nothing of the stream. */
  const FRESH := Client(None, false)

  datatype Verdict = Payload | Alive | NeedSnapshot | Ignored

  /** How a message of a stream is taken. */
  function Receive(c: Client, kind: Kind, sequence: int): (Client, Verdict) {
    if kind == Subscribed then (Client(Some(sequence), false), Payload)
    else if c.paused then (c, NeedSnapshot)
    else if kind == Heartbeat then
      if c.last.Some? && sequence > c.last.value then (c.(paused := true), NeedSnapshot)
      else (if c.last == None then c.(last := Some(sequence)) else c, Alive)
    else if kind == SnapshotRequired || kind == SlowConsumer then (c.(paused := true), NeedSnapshot)
    else if kind == Error then (c, Payload)
    else if c.last.Some? && sequence <= c.last.value then (c, Ignored)
    else if c.last.Some? && sequence != c.last.value + 1 then (c.(paused := true), NeedSnapshot)
    else (c.(last := Some(sequence)), Payload)
  }

  function StreamKey<P>(e: Envelope<P>): string { e.topic + ['\0'] + e.scope }

  class StreamTracker {
    var lastSequence: map<string, int>
    var paused: set<string>

    constructor ()
      ensures forall k :: ClientOf(k) == Client(None, false)
    {
      lastSequence, paused := map[], {};
    }

    function ClientOf(k: string): Client
      reads this
    {
      Client(if k in lastSequence then Some(lastSequence[k]) else None, k in paused)
    }

    /** `consumeRealtimeEnvelope`: the streams are tracked apart from one another. */
    method Consume<P>(e: Envelope<P>) returns (v: Verdict)
      modifies this
      ensures (ClientOf(StreamKey(e)), v) == Receive(old(ClientOf(StreamKey(e))), e.kind, e.sequence)
      ensures forall k :: k != StreamKey(e) ==> ClientOf(k) == old(ClientOf(k))
    {
      var k := StreamKey(e);
      if e.kind == Subscribed {
        paused := paused - {k};
        lastSequence := lastSequence[k := e.sequence];
        return Payload;
      }
      if k in paused { return NeedSnapshot; }
      if e.kind == Heartbeat {
        if k in lastSequence && e.sequence > lastSequence[k] {
          paused := paused + {k};
          return NeedSnapshot;
        }
        if k !in lastSequence { lastSequence := lastSequence[k := e.sequence]; }
        return Alive;
      }
      if e.kind == SnapshotRequired || e.kind == SlowConsumer {
        paused := paused + {k};
        return NeedSnapshot;
      }
      if e.kind == Error { return Payload; }
      if k in lastSequence && e.sequence <= lastSequence[k] { return Ignored; }
      if k in lastSequence && e.sequence != lastSequence[k] + 1 {
        paused := paused + {k};
        return NeedSnapshot;
      }
      lastSequence := lastSequence[k := e.sequence];
      v := Payload;
    }
  }

  // ---------------------------------------------------------------- end to end

  /** How many of the first `n` posts took a number. */
  function Count(posts: seq<Kind>, n: nat): nat
    requires n <= |posts|
  {
    if n == 0 then 0 else Count(posts, n - 1) + if Numbered(posts[n - 1]) then 1 else 0
  }

  /** The number that post `i` carries when the server's counter started at `base`. */
  function Sequence(posts: seq<Kind>, base: int, i: nat): int
    requires i < |posts|
  {
    base + Count(posts, i + 1)
  }

  /** Posting a list of messages numbers them so. */
  method PostAll<P>(b: EnvelopeBuilder<P>, posts: seq<Kind>, payload: P) returns (out: seq<Envelope<P>>)
    modifies b
    ensures |out| == |posts| && b.sequence == old(b.sequence) + Count(posts, |posts|)
    ensures forall i :: 0 <= i < |posts| ==>
      out[i] == Envelope(b.topic, b.scope, posts[i], Sequence(posts, old(b.sequence), i), payload)
  {
    out := [];
    for n := 0 to |posts|
      invariant |out| == n && b.sequence == old(b.sequence) + Count(posts, n)
      invariant forall i :: 0 <= i < n ==>
        out[i] == Envelope(b.topic, b.scope, posts[i], Sequence(posts, old(b.sequence), i), payload)
    {
      var e := b.Make(posts[n], payload, None);
      out := out + [e];
    }
  }

  /** What the channel delivers: posts in order, some left out, some repeated. */
  ghost predicate Delivery(posts: seq<Kind>, idx: seq<nat>) {
    && (forall k :: 0 <= k < |idx| ==> idx[k] < |posts|)
    && (forall j, k :: 0 <= j < k < |idx| ==> idx[j] <= idx[k])
  }

  /** The client after the first `n` deliveries. */
  function Run(posts: seq<Kind>, base: int, idx: seq<nat>, c: Client, n: nat): Client
    requires n <= |idx| && forall k :: 0 <= k < |idx| ==> idx[k] < |posts|
  {
    if n == 0 then c
    else Receive(Run(posts, base, idx, c, n - 1), posts[idx[n - 1]], Sequence(posts, base, idx[n - 1])).0
  }

  /** How delivery `k` is taken. */
  function VerdictAt(posts: seq<Kind>, base: int, idx: seq<nat>, c: Client, k: nat): Verdict
    requires k < |idx| && forall k :: 0 <= k < |idx| ==> idx[k] < |posts|
  {
    Receive(Run(posts, base, idx, c, k), posts[idx[k]], Sequence(posts, base, idx[k])).1
  }

  /** The posts whose events were handed on in deliveries `from` to `n`, in that order. */
  function Accepted(posts: seq<Kind>, base: int, idx: seq<nat>, c: Client, from: nat, n: nat): seq<nat>
    requires n <= |idx| && forall k :: 0 <= k < |idx| ==> idx[k] < |posts|
  {
    if n <= from then [] else
      Accepted(posts, base, idx, c, from, n - 1)
      + if posts[idx[n - 1]] == Event && VerdictAt(posts, base, idx, c, n - 1) == Payload then [idx[n - 1]] else []
  }

  /** The numbered posts after post `a` and before post `n`. */
  function NumberedAfter(posts: seq<Kind>, a: nat, n: nat): seq<nat>
    requires n <= |posts|
  {
    if n <= a + 1 then [] else NumberedAfter(posts, a, n - 1) + if Numbered(posts[n - 1]) then [n - 1] else []
  }

  /** The events the server posted after post `a` and before post `n`. */
  function EventsAfter(posts: seq<Kind>, a: nat, n: nat): seq<nat>
    requires n <= |posts|
  {
    if n <= a + 1 then [] else EventsAfter(posts, a, n - 1) + if posts[n - 1] == Event then [n - 1] else []
  }

  lemma {:induction false} NumberedCount(posts: seq<Kind>, a: nat, n: nat)
    requires a < n <= |posts|
    ensures |NumberedAfter(posts, a, n)| == Count(posts, n) - Count(posts, a + 1)
  {
    if n > a + 1 { NumberedCount(posts, a, n - 1); }
  }

  lemma {:induction false} NumberedPrefix(posts: seq<Kind>, a: nat, m: nat, n: nat)
    requires m <= n <= |posts|
    ensures |NumberedAfter(posts, a, m)| <= |NumberedAfter(posts, a, n)|
    ensures NumberedAfter(posts, a, n)[..|NumberedAfter(posts, a, m)|] == NumberedAfter(posts, a, m)
    decreases n
  {
    if m < n {
      NumberedPrefix(posts, a, m, n - 1);
      var x, y := NumberedAfter(posts, a, n - 1), NumberedAfter(posts, a, n);
      assert |x| <= |y| && y[..|x|] == x;
      assert y[..|NumberedAfter(posts, a, m)|] == y[..|x|][..|NumberedAfter(posts, a, m)|];
    }
  }

  /** Delivery `k0` was a `subscribed` and no other has been delivered before delivery `n`. */
  ghost predicate OneSubscription(posts: seq<Kind>, idx: seq<nat>, k0: nat, n: nat) {
    && Delivery(posts, idx) && k0 < n <= |idx| && posts[idx[k0]] == Subscribed
    && (forall k :: k0 < k < n ==> posts[idx[k]] != Subscribed)
  }

  /** Delivery `k0` sets the tracker's number - as a `subscribed`, or as the first event or heartbeat of a tracker
      that knows nothing yet - and no `subscribed` has been delivered after it before delivery `n`. */
  ghost predicate Anchored(posts: seq<Kind>, base: int, idx: seq<nat>, c: Client, k0: nat, n: nat) {
    && Delivery(posts, idx) && k0 < n <= |idx|
    && (posts[idx[k0]] == Subscribed || (posts[idx[k0]] in {Event, Heartbeat} && Run(posts, base, idx, c, k0) == FRESH))
    && (forall k :: k0 < k < n ==> posts[idx[k]] != Subscribed)
  }

  predicate AreEvents(posts: seq<Kind>, s: seq<nat>) {
    forall i :: 0 <= i < |s| ==> s[i] < |posts| && posts[s[i]] == Event
  }

  /** What was accepted is the first part of what was numbered, and the tracker's number says how much. */
  ghost predicate InStep(posts: seq<Kind>, base: int, a: nat, n: nat, last: Option<int>, acc: seq<nat>)
    requires a < n <= |posts|
  {
    && |acc| <= |NumberedAfter(posts, a, n)| && acc == NumberedAfter(posts, a, n)[..|acc|]
    && last == Some(Sequence(posts, base, a) + |acc|)
    && AreEvents(posts, acc)
  }

  lemma InStepLater(posts: seq<Kind>, base: int, a: nat, m: nat, n: nat, last: Option<int>, acc: seq<nat>)
    requires a < m <= n <= |posts| && InStep(posts, base, a, m, last, acc)
    ensures InStep(posts, base, a, n, last, acc)
  {
    NumberedPrefix(posts, a, m, n);
    assert NumberedAfter(posts, a, n)[..|acc|] == NumberedAfter(posts, a, n)[..|NumberedAfter(posts, a, m)|][..|acc|];
  }

  /** An event that continues the sequence is the next numbered post. */
  lemma NextEvent(posts: seq<Kind>, base: int, a: nat, i: nat, last: int, acc: seq<nat>)
    requires a < i < |posts| && posts[i] == Event && InStep(posts, base, a, i + 1, Some(last), acc)
    requires Sequence(posts, base, i) == last + 1
    ensures acc == NumberedAfter(posts, a, i) && InStep(posts, base, a, i + 1, Some(last + 1), acc + [i])
  {
    NumberedCount(posts, a, i + 1);
    var all := NumberedAfter(posts, a, i + 1);
    assert all == NumberedAfter(posts, a, i) + [i];
    assert |all| == |acc| + 1;
    assert all[..|acc|] == NumberedAfter(posts, a, i);
  }

  lemma DeliveryStep(posts: seq<Kind>, base: int, a: nat, i: nat, c: Client, acc: seq<nat>)
    requires a <= i < |posts| && posts[i] != Subscribed && InStep(posts, base, a, i + 1, c.last, acc)
    ensures var r := Receive(c, posts[i], Sequence(posts, base, i));
      InStep(posts, base, a, i + 1, r.0.last, acc + if posts[i] == Event && r.1 == Payload then [i] else [])
  {
    var r := Receive(c, posts[i], Sequence(posts, base, i));
    if posts[i] == Event && r.1 == Payload {
      NextEvent(posts, base, a, i, c.last.value, acc);
    } else {
      assert acc + [] == acc;
    }
  }

  lemma {:induction false} StaysInStep(posts: seq<Kind>, base: int, idx: seq<nat>, c: Client, k0: nat, n: nat)
    requires Anchored(posts, base, idx, c, k0, n)
    ensures InStep(posts, base, idx[k0], idx[n - 1] + 1, Run(posts, base, idx, c, n).last,
                   Accepted(posts, base, idx, c, k0 + 1, n))
    decreases n
  {
    var a := idx[k0];
    if n > k0 + 1 {
      StaysInStep(posts, base, idx, c, k0, n - 1);
      var before, acc := Run(posts, base, idx, c, n - 1), Accepted(posts, base, idx, c, k0 + 1, n - 1);
      InStepLater(posts, base, a, idx[n - 2] + 1, idx[n - 1] + 1, before.last, acc);
      DeliveryStep(posts, base, a, idx[n - 1], before, acc);
    }
  }

  /** The first `m` numbered posts are all there are before some post. */
  lemma {:induction false} CutFor(posts: seq<Kind>, a: nat, n: nat, m: nat) returns (cut: nat)
    requires n <= |posts| && m <= |NumberedAfter(posts, a, n)|
    ensures cut <= n && NumberedAfter(posts, a, cut) == NumberedAfter(posts, a, n)[..m]
  {
    if m == |NumberedAfter(posts, a, n)| {
      cut := n;
    } else {
      cut := CutFor(posts, a, n - 1, m);
    }
  }

  lemma AreEventsSplit(posts: seq<Kind>, x: seq<nat>, y: seq<nat>)
    requires AreEvents(posts, x + y)
    ensures AreEvents(posts, x) && AreEvents(posts, y)
  {
    var s := x + y;
    assert forall i :: 0 <= i < |x| ==> x[i] == s[i];
    assert forall i :: 0 <= i < |y| ==> y[i] == s[|x| + i];
  }

  lemma {:induction false} AllEvents(posts: seq<Kind>, a: nat, n: nat)
    requires n <= |posts| && AreEvents(posts, NumberedAfter(posts, a, n))
    ensures EventsAfter(posts, a, n) == NumberedAfter(posts, a, n)
  {
    if n > a + 1 {
      var last: seq<nat> := if Numbered(posts[n - 1]) then [n - 1] else [];
      AreEventsSplit(posts, NumberedAfter(posts, a, n - 1), last);
      AllEvents(posts, a, n - 1);
      if Numbered(posts[n - 1]) { assert posts[last[0]] == Event; }
    }
  }

  lemma {:induction false} EventsPrefix(posts: seq<Kind>, a: nat, m: nat, n: nat)
    requires m <= n <= |posts|
    ensures |EventsAfter(posts, a, m)| <= |EventsAfter(posts, a, n)|
    ensures EventsAfter(posts, a, n)[..|EventsAfter(posts, a, m)|] == EventsAfter(posts, a, m)
    decreases n
  {
    if m < n {
      EventsPrefix(posts, a, m, n - 1);
      var x, y := EventsAfter(posts, a, n - 1), EventsAfter(posts, a, n);
      assert |x| <= |y| && y[..|x|] == x;
      assert y[..|EventsAfter(posts, a, m)|] == y[..|x|][..|EventsAfter(posts, a, m)|];
    }
  }

  /** From where the tracker's number was set, the events handed on are the first posted after it. */
  lemma AnchoredPrefix(posts: seq<Kind>, base: int, idx: seq<nat>, c: Client, k0: nat, n: nat)
    requires Anchored(posts, base, idx, c, k0, n)
    ensures var acc := Accepted(posts, base, idx, c, k0 + 1, n); var all := EventsAfter(posts, idx[k0], |posts|);
      |acc| <= |all| && acc == all[..|acc|]
  {
    StaysInStep(posts, base, idx, c, k0, n);
    var acc := Accepted(posts, base, idx, c, k0 + 1, n);
    InStepLater(posts, base, idx[k0], idx[n - 1] + 1, |posts|, Run(posts, base, idx, c, n).last, acc);
    var cut := CutFor(posts, idx[k0], |posts|, |acc|);
    AllEvents(posts, idx[k0], cut);
    EventsPrefix(posts, idx[k0], cut, |posts|);
  }

  /** ... and a heartbeat taken as a sign of life says that they are all that were posted before it. */
  lemma AnchoredVouches(posts: seq<Kind>, base: int, idx: seq<nat>, c: Client, k0: nat, n: nat)
    requires Anchored(posts, base, idx, c, k0, n) && n < |idx| && posts[idx[n]] == Heartbeat
    requires VerdictAt(posts, base, idx, c, n) == Alive
    ensures Accepted(posts, base, idx, c, k0 + 1, n) == EventsAfter(posts, idx[k0], idx[n])
  {
    var a, h, acc := idx[k0], idx[n], Accepted(posts, base, idx, c, k0 + 1, n);
    StaysInStep(posts, base, idx, c, k0, n);
    InStepLater(posts, base, a, idx[n - 1] + 1, h + 1, Run(posts, base, idx, c, n).last, acc);
    assert NumberedAfter(posts, a, h + 1) == NumberedAfter(posts, a, h);
    NumberedCount(posts, a, h + 1);
    assert acc == NumberedAfter(posts, a, h);
    AllEvents(posts, a, h);
  }

  /** No gaps: the events handed on after a delivered `subscribed`, up to the next one delivered, are the
      first events the server posted after it, each once and in order. */
  lemma AcceptedIsPrefix(posts: seq<Kind>, base: int, idx: seq<nat>, c: Client, k0: nat, n: nat)
    requires OneSubscription(posts, idx, k0, n)
    ensures var acc := Accepted(posts, base, idx, c, k0 + 1, n); var all := EventsAfter(posts, idx[k0], |posts|);
      |acc| <= |all| && acc == all[..|acc|]
  {
    AnchoredPrefix(posts, base, idx, c, k0, n);
  }

  /** A heartbeat that is taken as a sign of life vouches for everything: all events posted between the
      `subscribed` and the heartbeat have been handed on. */
  lemma HeartbeatVouches(posts: seq<Kind>, base: int, idx: seq<nat>, c: Client, k0: nat, n: nat)
    requires OneSubscription(posts, idx, k0, n) && n < |idx| && posts[idx[n]] == Heartbeat
    requires VerdictAt(posts, base, idx, c, n) == Alive
    ensures Accepted(posts, base, idx, c, k0 + 1, n) == EventsAfter(posts, idx[k0], idx[n])
  {
    AnchoredVouches(posts, base, idx, c, k0, n);
  }

  /** After a gap nothing is handed on until the next `subscribed`. */
  lemma {:induction false} PausedUntilSubscribed(posts: seq<Kind>, base: int, idx: seq<nat>, c: Client, k: nat, n: nat)
    requires Delivery(posts, idx) && k <= n <= |idx| && Run(posts, base, idx, c, k).paused
    requires forall j :: k <= j < n ==> posts[idx[j]] != Subscribed
    ensures Run(posts, base, idx, c, n) == Run(posts, base, idx, c, k)
    ensures forall j :: k <= j < n ==> VerdictAt(posts, base, idx, c, j) == NeedSnapshot
    decreases n
  {
    if k < n { PausedUntilSubscribed(posts, base, idx, c, k, n - 1); }
  }

  /** A message whose number is too high for what was seen pauses the stream. */
  lemma TooHighPauses(c: Client, last: int, kind: Kind, sequence: int)
    requires c.last == Some(last) && kind in {Event, Heartbeat} && sequence > last + (if kind == Event then 1 else 0)
    ensures Receive(c, kind, sequence).0.paused
  {}

  lemma OneShort(all: seq<nat>, acc: seq<nat>, before: seq<nat>, lost: nat)
    requires |acc| <= |all| && acc == all[..|acc|] && |before| <= |all| && all[..|before|] == before
    requires lost in before && lost !in acc
    ensures |acc| < |before|
  {
    LongerPrefix(all, |before|, |acc|);
  }

  lemma LongerPrefix(s: seq<nat>, m: nat, n: nat)
    requires m <= |s| && n <= |s|
    ensures m <= n ==> forall x :: x in s[..m] ==> x in s[..n]
  {
    forall i | 0 <= i < m && m <= n ensures s[i] in s[..n] { assert s[..n][i] == s[i]; }
  }

  lemma TooHigh(posts: seq<Kind>, base: int, a: nat, h: nat, taken: nat)
    requires a < h < |posts| && taken < |NumberedAfter(posts, a, h)|
    ensures Sequence(posts, base, h)
         > Sequence(posts, base, a) + taken + if posts[h] == Event then 1 else 0
  {
    NumberedCount(posts, a, h);
  }

  lemma Behind(posts: seq<Kind>, base: int, a: nat, h: nat, last: int, acc: seq<nat>, lost: nat)
    requires a < lost < h < |posts| && posts[lost] == Event && lost !in acc
    requires InStep(posts, base, a, h + 1, Some(last), acc)
    ensures Sequence(posts, base, h) > last + if posts[h] == Event then 1 else 0
  {
    NumberedHas(posts, a, h, lost);
    NumberedPrefix(posts, a, h, h + 1);
    OneShort(NumberedAfter(posts, a, h + 1), acc, NumberedAfter(posts, a, h), lost);
    TooHigh(posts, base, a, h, |acc|);
  }

  /** A lost event is noticed: the next event or heartbeat after it that gets through pauses the stream. */
  lemma LossIsNoticed(posts: seq<Kind>, base: int, idx: seq<nat>, c: Client, k0: nat, n: nat, lost: nat)
    requires OneSubscription(posts, idx, k0, n) && n < |idx| && posts[idx[n]] in {Event, Heartbeat}
    requires idx[k0] < lost < idx[n] && posts[lost] == Event && lost !in Accepted(posts, base, idx, c, k0 + 1, n)
    ensures Run(posts, base, idx, c, n + 1).paused
  {
    var a, h, acc := idx[k0], idx[n], Accepted(posts, base, idx, c, k0 + 1, n);
    var client := Run(posts, base, idx, c, n);
    StaysInStep(posts, base, idx, c, k0, n);
    InStepLater(posts, base, a, idx[n - 1] + 1, h + 1, client.last, acc);
    Behind(posts, base, a, h, client.last.value, acc, lost);
    TooHighPauses(client, client.last.value, posts[h], Sequence(posts, base, h));
  }

  lemma {:induction false} NumberedHas(posts: seq<Kind>, a: nat, n: nat, i: nat)
    requires a < i < n <= |posts| && Numbered(posts[i])
    ensures i in NumberedAfter(posts, a, n)
    decreases n
  {
    if i < n - 1 { NumberedHas(posts, a, n - 1, i); }
  }

  // ---------------------------------------------------------------- nothing lost, nothing withheld

  /** Between deliveries `k0` and `n - 1` no numbered post was left out, and the server never asked for a snapshot. */
  ghost predicate Lossless(posts: seq<Kind>, idx: seq<nat>, k0: nat, n: nat) {
    && OneSubscription(posts, idx, k0, n)
    && (forall p :: idx[k0] < p < idx[n - 1] && posts[p] in {Subscribed, Event} ==> p in idx)
    && (forall k :: k0 < k < n ==> posts[idx[k]] in {Event, Heartbeat, Error})
  }

  lemma {:induction false} NoneBetween(posts: seq<Kind>, a: nat, m: nat, n: nat)
    requires a < m <= n <= |posts| && forall p :: m <= p < n ==> posts[p] !in {Subscribed, Event}
    ensures Count(posts, n) == Count(posts, m) && EventsAfter(posts, a, n) == EventsAfter(posts, a, m)
    decreases n
  {
    if m < n { NoneBetween(posts, a, m, n - 1); }
  }

  lemma NotDelivered(posts: seq<Kind>, idx: seq<nat>, n: nat, p: nat)
    requires Delivery(posts, idx) && 2 <= n <= |idx| && idx[n - 2] < p < idx[n - 1]
    ensures p !in idx
  {
    forall k | 0 <= k < |idx| ensures idx[k] != p {
      if k < n - 2 { assert idx[k] <= idx[n - 2]; }
      if k > n - 1 { assert idx[n - 1] <= idx[k]; }
    }
  }

  lemma LosslessBefore(posts: seq<Kind>, idx: seq<nat>, k0: nat, n: nat)
    requires Lossless(posts, idx, k0, n) && n > k0 + 1
    ensures Lossless(posts, idx, k0, n - 1)
    ensures idx[k0] <= idx[n - 2] <= idx[n - 1] < |posts|
    ensures forall p :: idx[n - 2] < p < idx[n - 1] ==> posts[p] !in {Subscribed, Event}
  {
    forall p | idx[n - 2] < p < idx[n - 1] ensures posts[p] !in {Subscribed, Event} {
      NotDelivered(posts, idx, n, p);
    }
  }

  lemma LosslessEarlier(posts: seq<Kind>, idx: seq<nat>, k0: nat, n: nat)
    requires Lossless(posts, idx, k0, n) && n > k0 + 1
    ensures Lossless(posts, idx, k0, n - 1) && OneSubscription(posts, idx, k0, n - 1)
  {
    LosslessBefore(posts, idx, k0, n);
  }

  /** A delivery that repeats the one before it, or is the next one but for messages without a number, is handed on
      once if it is an event, and never pauses the stream. */
  lemma LosslessStep(posts: seq<Kind>, base: int, a: nat, m: nat, i: nat)
    requires a <= m <= i < |posts| && posts[i] in {Event, Heartbeat, Error}
    requires forall p :: m < p < i ==> posts[p] !in {Subscribed, Event}
    ensures var r := Receive(Client(Some(Sequence(posts, base, m)), false), posts[i], Sequence(posts, base, i));
      && r.0 == Client(Some(Sequence(posts, base, i)), false)
      && EventsAfter(posts, a, i + 1)
         == EventsAfter(posts, a, m + 1) + if posts[i] == Event && r.1 == Payload then [i] else []
  {
    if m < i { NoneBetween(posts, a, m + 1, i); }
  }

  /** Everything posted up to delivery `n - 1` has been handed on, and the stream is not paused. */
  ghost predicate AllHandedOn(posts: seq<Kind>, base: int, idx: seq<nat>, c: Client, k0: nat, n: nat)
    requires OneSubscription(posts, idx, k0, n)
  {
    && Accepted(posts, base, idx, c, k0 + 1, n) == EventsAfter(posts, idx[k0], idx[n - 1] + 1)
    && Run(posts, base, idx, c, n) == Client(Some(Sequence(posts, base, idx[n - 1])), false)
  }

  lemma FirstHandedOn(posts: seq<Kind>, base: int, idx: seq<nat>, c: Client, k0: nat)
    requires OneSubscription(posts, idx, k0, k0 + 1)
    ensures AllHandedOn(posts, base, idx, c, k0, k0 + 1)
  {}

  lemma NextHandedOn(posts: seq<Kind>, base: int, idx: seq<nat>, c: Client, k0: nat, n: nat)
    requires Lossless(posts, idx, k0, n) && n > k0 + 1
    requires OneSubscription(posts, idx, k0, n - 1) && AllHandedOn(posts, base, idx, c, k0, n - 1)
    ensures AllHandedOn(posts, base, idx, c, k0, n)
  {
    LosslessBefore(posts, idx, k0, n);
    LosslessStep(posts, base, idx[k0], idx[n - 2], idx[n - 1]);
  }

  /** On a channel that loses nothing the client misses nothing: after a `subscribed`, every event posted up to the last
      delivery has been handed on, and the stream is not paused. */
  lemma {:induction false} LosslessHandsOnAll(posts: seq<Kind>, base: int, idx: seq<nat>, c: Client, k0: nat, n: nat)
    requires Lossless(posts, idx, k0, n)
    ensures AllHandedOn(posts, base, idx, c, k0, n)
    decreases n
  {
    if n > k0 + 1 {
      LosslessEarlier(posts, idx, k0, n);
      LosslessHandsOnAll(posts, base, idx, c, k0, n - 1);
      NextHandedOn(posts, base, idx, c, k0, n);
    } else {
      FirstHandedOn(posts, base, idx, c, k0);
    }
  }

  // ---------------------------------------------------------------- streams are told apart

  /** The text before the first separator. */
  function TopicIn(key: string): string {
    if key == "" || key[0] == '\0' then "" else [key[0]] + TopicIn(key[1..])
  }

  lemma {:induction false} TopicFirst(topic: string, scope: string)
    requires '\0' !in topic
    ensures TopicIn(topic + ['\0'] + scope) == topic
  {
    if topic != "" {
      assert (topic + ['\0'] + scope)[1..] == topic[1..] + ['\0'] + scope;
      TopicFirst(topic[1..], scope);
    }
  }

  /** Two streams share a tracker's entry only if they are the same, as long as no topic holds the separator. */
  lemma StreamKeysApart<P>(e: Envelope<P>, f: Envelope<P>)
    requires '\0' !in e.topic && '\0' !in f.topic
    ensures StreamKey(e) == StreamKey(f) <==> e.topic == f.topic && e.scope == f.scope
  {
    TopicFirst(e.topic, e.scope);
    TopicFirst(f.topic, f.scope);
    assert StreamKey(e)[|e.topic| + 1..] == e.scope && StreamKey(f)[|f.topic| + 1..] == f.scope;
  }
}
