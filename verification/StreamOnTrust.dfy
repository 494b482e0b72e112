/** A tracker that knows nothing yet takes the first event or heartbeat on trust. Over any delivery without a
    `subscribed`, this says what it then hands on, and exactly when that can be relied on. */
module StreamOnTrust {
  import opened Ordering
  import opened RealtimeStream

  // ---------------------------------------------------------------- the first message taken

  /** Delivery `k0` is the first event or heartbeat a fresh tracker takes, and no `subscribed` arrives before `n`. */
  ghost predicate OnTrust(posts: seq<Kind>, base: int, idx: seq<nat>, k0: nat, n: nat) {
    && Delivery(posts, idx) && k0 < n <= |idx| && (forall k :: 0 <= k < n ==> posts[idx[k]] != Subscribed)
    && posts[idx[k0]] in {Event, Heartbeat} && Run(posts, base, idx, FRESH, k0) == FRESH
  }

  /** The tracker has taken nothing in the first `n` deliveries. */
  ghost predicate NothingTaken(posts: seq<Kind>, base: int, idx: seq<nat>, n: nat)
    requires Delivery(posts, idx) && n <= |idx|
  {
    && Run(posts, base, idx, FRESH, n).last == None && Accepted(posts, base, idx, FRESH, 0, n) == []
    && (forall k :: 0 <= k < n ==> VerdictAt(posts, base, idx, FRESH, k) != Alive)
  }

  lemma {:induction false} UntilTaken(posts: seq<Kind>, base: int, idx: seq<nat>, n: nat)
    requires Delivery(posts, idx) && n <= |idx| && Run(posts, base, idx, FRESH, n).last == None
    ensures NothingTaken(posts, base, idx, n)
  {
    if n > 0 { UntilTaken(posts, base, idx, n - 1); }
  }

  /** Either nothing is ever taken, or there is a first message taken. */
  lemma {:induction false} FirstTaken(posts: seq<Kind>, base: int, idx: seq<nat>, n: nat) returns (k0: nat)
    requires Delivery(posts, idx) && n <= |idx| && forall k :: 0 <= k < n ==> posts[idx[k]] != Subscribed
    ensures NothingTaken(posts, base, idx, n) || OnTrust(posts, base, idx, k0, n)
  {
    k0 := 0;
    if n > 0 {
      k0 := FirstTaken(posts, base, idx, n - 1);
      if NothingTaken(posts, base, idx, n - 1) {
        if Run(posts, base, idx, FRESH, n).last == None {
          UntilTaken(posts, base, idx, n);
        } else {
          k0 := n - 1;
        }
      }
    }
  }

  // ---------------------------------------------------------------- what is then handed on

  function Itself(posts: seq<Kind>, f: nat): seq<nat>
    requires f < |posts|
  {
    if posts[f] == Event then [f] else []
  }

  lemma {:induction false} EventsSplit(posts: seq<Kind>, s: nat, f: nat, n: nat)
    requires s < f < n <= |posts|
    ensures EventsAfter(posts, s, n) == EventsAfter(posts, s, f) + From(posts, f, n)
    decreases n
  {
    if f < n - 1 {
      EventsSplit(posts, s, f, n - 1);
      Regroup(EventsAfter(posts, s, f), From(posts, f, n - 1), Itself(posts, n - 1));
      Regroup(Itself(posts, f), EventsAfter(posts, f, n - 1), Itself(posts, n - 1));
    }
  }

  lemma Regroup(a: seq<nat>, b: seq<nat>, c: seq<nat>)
    ensures a + b + c == a + (b + c)
  {}

  /** The events posted from post `f` on, itself included, before post `n`. */
  function From(posts: seq<Kind>, f: nat, n: nat): seq<nat>
    requires f < |posts| && n <= |posts|
  {
    Itself(posts, f) + EventsAfter(posts, f, n)
  }

  lemma {:induction false} AcceptedSplit(posts: seq<Kind>, base: int, idx: seq<nat>, k0: nat, n: nat)
    requires OnTrust(posts, base, idx, k0, n)
    ensures Accepted(posts, base, idx, FRESH, 0, n)
         == Itself(posts, idx[k0]) + Accepted(posts, base, idx, FRESH, k0 + 1, n)
    decreases n
  {
    if n == k0 + 1 {
      UntilTaken(posts, base, idx, k0);
    } else {
      AcceptedSplit(posts, base, idx, k0, n - 1);
    }
  }

  /** Gap-free from the first message taken: that event, if it is one, and then the first events posted after it. */
  lemma StretchFromFirst(posts: seq<Kind>, base: int, idx: seq<nat>, k0: nat, n: nat)
    requires OnTrust(posts, base, idx, k0, n)
    ensures var acc := Accepted(posts, base, idx, FRESH, 0, n);
      var all := From(posts, idx[k0], |posts|);
      |acc| <= |all| && acc == all[..|acc|]
  {
    AcceptedSplit(posts, base, idx, k0, n);
    AnchoredPrefix(posts, base, idx, FRESH, k0, n);
  }

  /** No event was posted after `s` and before `f`. */
  ghost predicate NoEventBetween(posts: seq<Kind>, s: nat, f: nat)
    requires f <= |posts|
  {
    forall i :: s < i < f ==> posts[i] != Event
  }

  lemma {:induction false} NoneBetween(posts: seq<Kind>, s: nat, f: nat)
    requires f <= |posts|
    ensures EventsAfter(posts, s, f) == [] <==> NoEventBetween(posts, s, f)
    ensures EventsAfter(posts, s, f) != [] ==> s < EventsAfter(posts, s, f)[0] < f
    decreases f
  {
    if f > s + 1 {
      NoneBetween(posts, s, f - 1);
      assert posts[f - 1] == Event ==> !NoEventBetween(posts, s, f);
    }
  }

  ghost predicate Prefix(a: seq<nat>, b: seq<nat>) { |a| <= |b| && a == b[..|a|] }

  /** Exactly when the tracker can be relied on: what a fresh tracker hands on is a prefix of the events posted
      after post `s` - the `subscribed` it missed - if and only if no event lies between `s` and the first message
      it took. */
  lemma TrustedPrefixIff(posts: seq<Kind>, base: int, idx: seq<nat>, k0: nat, n: nat, s: nat)
    requires OnTrust(posts, base, idx, k0, n) && s < idx[k0] && Accepted(posts, base, idx, FRESH, 0, n) != []
    ensures Prefix(Accepted(posts, base, idx, FRESH, 0, n), EventsAfter(posts, s, |posts|))
        <==> NoEventBetween(posts, s, idx[k0])
  {
    var f, acc := idx[k0], Accepted(posts, base, idx, FRESH, 0, n);
    StretchFromFirst(posts, base, idx, k0, n);
    EventsSplit(posts, s, f, |posts|);
    NoneBetween(posts, s, f);
    AfterIsLater(posts, f, |posts|);
    PrefixBehind(EventsAfter(posts, s, f), From(posts, f, |posts|), acc, f);
  }

  lemma PrefixBehind(missed: seq<nat>, all: seq<nat>, acc: seq<nat>, f: nat)
    requires Prefix(acc, all) && acc != [] && (missed != [] ==> missed[0] < f)
    requires forall i :: 0 <= i < |all| ==> f <= all[i]
    ensures Prefix(acc, missed + all) <==> missed == []
  {
    var both := missed + all;
    assert acc[0] == all[..|acc|][0] == all[0];
    if missed == [] {
      assert both == all;
    } else if |acc| <= |both| {
      assert both[..|acc|][0] == missed[0];
    }
  }

  lemma AppendSame(missed: seq<nat>, rest: seq<nat>)
    ensures rest == missed + rest <==> missed == []
  {
    assert |missed + rest| == |missed| + |rest|;
  }

  lemma {:induction false} AfterIsLater(posts: seq<Kind>, f: nat, n: nat)
    requires n <= |posts|
    ensures forall i :: 0 <= i < |EventsAfter(posts, f, n)| ==> f < EventsAfter(posts, f, n)[i]
  {
    if n > f + 1 { AfterIsLater(posts, f, n - 1); }
  }

  /** ... and a heartbeat taken as a sign of life, the first message included, vouches for every event posted
      between `s` and it under the same condition and no other. */
  lemma TrustedHeartbeatIff(posts: seq<Kind>, base: int, idx: seq<nat>, k0: nat, n: nat, h: nat, s: nat)
    requires OnTrust(posts, base, idx, k0, n) && k0 <= h < n && s < idx[k0]
    requires posts[idx[h]] == Heartbeat && VerdictAt(posts, base, idx, FRESH, h) == Alive
    ensures Accepted(posts, base, idx, FRESH, 0, h) == EventsAfter(posts, s, idx[h])
        <==> NoEventBetween(posts, s, idx[k0])
  {
    if h == k0 {
      UntilTaken(posts, base, idx, k0);
    } else {
      LaterHeartbeat(posts, base, idx, k0, n, h);
    }
    MissedIff(posts, s, idx[k0], idx[h]);
    NoneBetween(posts, s, idx[k0]);
  }

  lemma LaterHeartbeat(posts: seq<Kind>, base: int, idx: seq<nat>, k0: nat, n: nat, h: nat)
    requires OnTrust(posts, base, idx, k0, n) && k0 < h < n
    requires posts[idx[h]] == Heartbeat && VerdictAt(posts, base, idx, FRESH, h) == Alive
    ensures Accepted(posts, base, idx, FRESH, 0, h) == From(posts, idx[k0], idx[h])
  {
    AcceptedSplit(posts, base, idx, k0, h);
    AnchoredVouches(posts, base, idx, FRESH, k0, h);
  }

  lemma MissedIff(posts: seq<Kind>, s: nat, f: nat, n: nat)
    requires s < f <= n < |posts| && posts[n] == Heartbeat
    ensures From(posts, f, n) == EventsAfter(posts, s, n) <==> EventsAfter(posts, s, f) == []
  {
    if f < n {
      MissedLater(EventsAfter(posts, s, f), From(posts, f, n), EventsAfter(posts, s, n), posts, s, f, n);
    } else {
      assert EventsAfter(posts, f, n) == [];
    }
  }

  lemma MissedLater(missed: seq<nat>, rest: seq<nat>, all: seq<nat>, posts: seq<Kind>, s: nat, f: nat, n: nat)
    requires s < f < n <= |posts|
    requires missed == EventsAfter(posts, s, f) && rest == From(posts, f, n) && all == EventsAfter(posts, s, n)
    ensures rest == all <==> missed == []
  {
    EventsSplit(posts, s, f, n);
    AppendSame(missed, rest);
  }

  // ---------------------------------------------------------------- witnesses

  /** A lost event that nobody notices, because the event after it is the first to arrive. */
  lemma FirstEventTakenOnTrust(base: int)
    ensures var posts := [Subscribed, Event, Event];
      && OnTrust(posts, base, [2], 0, 1) && !NoEventBetween(posts, 0, 2)
      && Accepted(posts, base, [2], FRESH, 0, 1) == [2]
  {
    var posts := [Subscribed, Event, Event];
    assert posts[1] == Event;
    assert Run(posts, base, [2], FRESH, 0) == FRESH;
    AcceptedSplit(posts, base, [2], 0, 1);
  }

  /** ... or because a heartbeat is, and is taken as a sign that all is well. */
  lemma FirstHeartbeatTakenOnTrust(base: int)
    ensures var posts := [Subscribed, Event, Heartbeat];
      && OnTrust(posts, base, [2], 0, 1) && !NoEventBetween(posts, 0, 2)
      && VerdictAt(posts, base, [2], FRESH, 0) == Alive && Accepted(posts, base, [2], FRESH, 0, 1) == []
  {
    var posts := [Subscribed, Event, Heartbeat];
    assert posts[1] == Event;
    assert Run(posts, base, [2], FRESH, 0) == FRESH;
    AcceptedSplit(posts, base, [2], 0, 1);
  }
}
