/** What later knowledge can and cannot change in a backtest, and what the ledger adds up to. */
module BacktestCausality {
  import opened Ordering
  import opened BacktestReplay

  function EventTime(e: Event): int { e.knowledge }
  function SignalTime(s: Signal): int { s.knowledge }
  function TradeTime(t: Trade): int { t.knowledge }
  function PointTime(p: Point): int { p.knowledge }

  /** The two inputs agree, in order, on everything known up to `cut`. */
  ghost predicate AgreeUpTo(c1: seq<Event>, c2: seq<Event>, s1: seq<Signal>, s2: seq<Signal>, cut: int) {
    && Filter(c1, UpTo(EventTime, cut)) == Filter(c2, UpTo(EventTime, cut))
    && Filter(s1, UpTo(SignalTime, cut)) == Filter(s2, UpTo(SignalTime, cut))
  }

  /** Up to `cut` both ledgers have the same `p` trades and equity points, and those come first. */
  ghost predicate SamePast(l1: Ledger, l2: Ledger, cut: int, p: nat) {
    && CutsAt(l1.trades, TradeTime, cut, p) && CutsAt(l2.trades, TradeTime, cut, p)
    && CutsAt(l1.points, PointTime, cut, p) && CutsAt(l2.points, PointTime, cut, p)
    && l1.trades[..p] == l2.trades[..p] && l1.points[..p] == l2.points[..p]
  }

  // ---------------------------------------------------------------- agreeing inputs, in order

  ghost predicate Refines<T(!new)>(leq: (T, T) -> bool, key: T -> int) {
    forall x, y :: leq(x, y) ==> key(x) <= key(y)
  }

  /** Lists that agree up to a cut are, once sorted, equal up to it and later than it afterwards. */
  lemma SortedAgree<T(!new)>(a: seq<T>, b: seq<T>, leq: (T, T) -> bool, key: T -> int, cut: int) returns (m: nat)
    requires TotalPreorder(leq) && Refines(leq, key)
    requires Filter(a, UpTo(key, cut)) == Filter(b, UpTo(key, cut))
    ensures CutsAt(StableSort(a, leq), key, cut, m) && CutsAt(StableSort(b, leq), key, cut, m)
    ensures StableSort(a, leq)[..m] == StableSort(b, leq)[..m]
  {
    var x, y := StableSort(a, leq), StableSort(b, leq);
    StableSortSorted(a, leq);
    StableSortSorted(b, leq);
    m := CutExists(x, key, cut);
    var n := CutExists(y, key, cut);
    UpToIsPrefix(x, key, cut, m);
    UpToIsPrefix(y, key, cut, n);
    FilterSort(a, leq, UpTo(key, cut));
    FilterSort(b, leq, UpTo(key, cut));
    assert |x[..m]| == m && |y[..n]| == n;
  }

  lemma SignalLeqTotal()
    ensures TotalPreorder(SignalLeq)
  {}

  lemma SignalsOrdered(signals: seq<Signal>)
    ensures OrderedSignals(signals) == StableSort(signals, SignalLeq)
    ensures KeyOrdered(OrderedSignals(signals), SignalTime)
  {
    PositionsMeanStable(signals, 0);
    SignalLeqTotal();
    StableSortSorted(signals, SignalLeq);
  }

  // ---------------------------------------------------------------- executions

  /** The signal trades on one of the first `m` events. */
  predicate Early(spec: Spec, events: seq<Event>, s: Signal, m: nat) { FirstUsable(events, Target(spec, s)) < m }

  /** A later signal does not trade on an earlier event. */
  lemma UsableMonotone(events: seq<Event>, t: int, t': int)
    requires t <= t'
    ensures FirstUsable(events, t) <= FirstUsable(events, t')
  {
    var k' := FirstUsable(events, t');
    assert k' < |events| ==> Usable(events[k'], t);
  }

  lemma UsableAgrees(e1: seq<Event>, e2: seq<Event>, m: nat, t: int)
    requires m <= |e1| && m <= |e2| && e1[..m] == e2[..m]
    ensures FirstUsable(e1, t) < m <==> FirstUsable(e2, t) < m
    ensures FirstUsable(e1, t) < m ==> FirstUsable(e1, t) == FirstUsable(e2, t)
  {
    var k1, k2 := FirstUsable(e1, t), FirstUsable(e2, t);
    assert forall i :: 0 <= i < m ==> e1[i] == e1[..m][i] && e2[i] == e2[..m][i];
  }

  /** Once a signal misses the first `m` events, all after it do. */
  lemma LateStays(spec: Spec, events: seq<Event>, signals: seq<Signal>, i: nat, j: nat, m: nat)
    requires i <= j < |signals| && KeyOrdered(signals, SignalTime) && !Early(spec, events, signals[i], m)
    ensures !Early(spec, events, signals[j], m)
  {
    assert SignalTime(signals[i]) <= SignalTime(signals[j]);
    UsableMonotone(events, Target(spec, signals[i]), Target(spec, signals[j]));
  }

  /** With a latency that is not negative, a signal known after the cut trades after it. */
  lemma LateSignal(spec: Spec, events: seq<Event>, s: Signal, cut: int, m: nat)
    requires spec.latencySeconds >= 0 && CutsAt(events, EventTime, cut, m) && s.knowledge > cut
    ensures !Early(spec, events, s, m)
  {
    var k := FirstUsable(events, Target(spec, s));
    assert k < m ==> EventTime(events[k]) <= cut;
  }

  /** How many signals, from the first, trade on one of the first `m` events. */
  function EarlyCount(spec: Spec, events: seq<Event>, signals: seq<Signal>, m: nat): (p: nat)
    ensures p <= |signals| && (forall i :: 0 <= i < p ==> Early(spec, events, signals[i], m))
    ensures p < |signals| ==> !Early(spec, events, signals[p], m)
  {
    if signals == [] || !Early(spec, events, signals[0], m) then 0 else 1 + EarlyCount(spec, events, signals[1..], m)
  }

  // ---------------------------------------------------------------- replays

  lemma BookAppends(spec: Spec, events: seq<Event>, l: Ledger, s: Signal)
    ensures var l' := Execute(spec, events, l, s); var e := ExecutionEvent(spec, events, s);
      if e == None then l' == l
      else && |l'.trades| == |l.trades| + 1 && l'.trades[..|l.trades|] == l.trades
           && |l'.points| == |l.points| + 1 && l'.points[..|l.points|] == l.points
           && l'.trades[|l.trades|].knowledge == e.value.knowledge
           && l'.points[|l.points|].knowledge == e.value.knowledge
  {}

  /** All of the first `p` signals traded, by the cut. */
  ghost predicate TradedBy(l: Ledger, cut: int, p: nat) {
    && |l.trades| == |l.points| == p
    && (forall i :: 0 <= i < p ==> TradeTime(l.trades[i]) <= cut && PointTime(l.points[i]) <= cut)
  }

  lemma {:induction false} SameEarly(spec: Spec, e1: seq<Event>, e2: seq<Event>, s1: seq<Signal>, s2: seq<Signal>,
                                     cut: int, m: nat, p: nat)
    requires p <= |s1| && p <= |s2| && s1[..p] == s2[..p]
    requires CutsAt(e1, EventTime, cut, m) && m <= |e2| && e1[..m] == e2[..m]
    requires forall i :: 0 <= i < p ==> Early(spec, e1, s1[i], m)
    ensures Replay(spec, e1, s1, p) == Replay(spec, e2, s2, p) && TradedBy(Replay(spec, e1, s1, p), cut, p)
  {
    if p > 0 {
      assert s1[..p - 1] == s1[..p][..p - 1] && s2[..p - 1] == s2[..p][..p - 1];
      SameEarly(spec, e1, e2, s1, s2, cut, m, p - 1);
      var s := s1[p - 1];
      assert s == s1[..p][p - 1] == s2[p - 1];
      assert Early(spec, e1, s, m);
      UsableAgrees(e1, e2, m, Target(spec, s));
      var k := FirstUsable(e1, Target(spec, s));
      assert e1[k] == e1[..m][k] == e2[k];
      assert EventTime(e1[k]) <= cut;
      BookAppends(spec, e1, Replay(spec, e1, s1, p - 1), s);
      TradedStep(Replay(spec, e1, s1, p - 1), Replay(spec, e1, s1, p), cut, p - 1);
    }
  }

  lemma TradedStep(l: Ledger, l': Ledger, cut: int, p: nat)
    requires TradedBy(l, cut, p) && |l'.trades| == |l'.points| == p + 1 && l'.trades[..p] == l.trades
    requires l'.points[..p] == l.points
    requires TradeTime(l'.trades[p]) <= cut && PointTime(l'.points[p]) <= cut
    ensures TradedBy(l', cut, p + 1)
  {
    forall i | 0 <= i < p + 1 ensures TradeTime(l'.trades[i]) <= cut && PointTime(l'.points[i]) <= cut {
      if i < p { assert l'.trades[i] == l'.trades[..p][i] && l'.points[i] == l'.points[..p][i]; }
    }
  }

  /** `l'` has what `l` has, and then only what became known after the cut. */
  ghost predicate OnlyLater(l: Ledger, l': Ledger, cut: int) {
    && |l.trades| == |l.points| <= |l'.trades| == |l'.points|
    && l'.trades[..|l.trades|] == l.trades && l'.points[..|l.points|] == l.points
    && (forall i :: |l.trades| <= i < |l'.trades| ==> TradeTime(l'.trades[i]) > cut && PointTime(l'.points[i]) > cut)
  }

  lemma OnlyLaterStep(l: Ledger, l1: Ledger, l2: Ledger, cut: int)
    requires OnlyLater(l, l1, cut) && |l2.trades| == |l1.trades| + 1 && |l2.points| == |l1.points| + 1
    requires l2.trades[..|l1.trades|] == l1.trades && l2.points[..|l1.points|] == l1.points
    requires TradeTime(l2.trades[|l1.trades|]) > cut && PointTime(l2.points[|l1.points|]) > cut
    ensures OnlyLater(l, l2, cut)
  {
    assert l2.trades[..|l.trades|] == l2.trades[..|l1.trades|][..|l.trades|];
    assert l2.points[..|l.points|] == l2.points[..|l1.points|][..|l.points|];
    forall i | |l.trades| <= i < |l2.trades| ensures TradeTime(l2.trades[i]) > cut && PointTime(l2.points[i]) > cut {
      if i < |l1.trades| {
        assert l2.trades[i] == l2.trades[..|l1.trades|][i] && l2.points[i] == l2.points[..|l1.points|][i];
      }
    }
  }

  lemma {:induction false} LateTail(spec: Spec, events: seq<Event>, signals: seq<Signal>, cut: int, m: nat, p: nat,
                                    n: nat)
    requires p <= n <= |signals| && CutsAt(events, EventTime, cut, m)
    requires forall i :: p <= i < |signals| ==> !Early(spec, events, signals[i], m)
    requires |Replay(spec, events, signals, p).trades| == |Replay(spec, events, signals, p).points|
    ensures OnlyLater(Replay(spec, events, signals, p), Replay(spec, events, signals, n), cut)
    decreases n
  {
    if n > p {
      LateTail(spec, events, signals, cut, m, p, n - 1);
      var l, s := Replay(spec, events, signals, n - 1), signals[n - 1];
      assert !Early(spec, events, s, m);
      var k := FirstUsable(events, Target(spec, s));
      BookAppends(spec, events, l, s);
      if k < |events| {
        assert EventTime(events[k]) > cut;
        OnlyLaterStep(Replay(spec, events, signals, p), l, Replay(spec, events, signals, n), cut);
      }
    }
  }

  lemma PastOf(l: Ledger, l': Ledger, cut: int, p: nat)
    requires TradedBy(l, cut, p) && OnlyLater(l, l', cut)
    ensures CutsAt(l'.trades, TradeTime, cut, p) && CutsAt(l'.points, PointTime, cut, p)
    ensures l'.trades[..p] == l.trades && l'.points[..p] == l.points
  {
    assert forall i :: 0 <= i < p ==> l'.trades[i] == l'.trades[..p][i] && l'.points[i] == l'.points[..p][i];
  }

  lemma AllLate(spec: Spec, events: seq<Event>, signals: seq<Signal>, cut: int, m: nat, n: nat, p: nat)
    requires spec.latencySeconds >= 0 && KeyOrdered(signals, SignalTime)
    requires CutsAt(events, EventTime, cut, m) && CutsAt(signals, SignalTime, cut, n)
    requires p <= n && (p < n ==> !Early(spec, events, signals[p], m))
    ensures forall i :: p <= i < |signals| ==> !Early(spec, events, signals[i], m)
  {
    forall i | p <= i < |signals| ensures !Early(spec, events, signals[i], m) {
      if p < n {
        LateStays(spec, events, signals, p, i, m);
      } else {
        LateSignal(spec, events, signals[i], cut, m);
      }
    }
  }

  lemma ReplaysAgree(spec: Spec, e1: seq<Event>, e2: seq<Event>, s1: seq<Signal>, s2: seq<Signal>, cut: int, m: nat,
                     n: nat) returns (p: nat)
    requires spec.latencySeconds >= 0 && KeyOrdered(s1, SignalTime) && KeyOrdered(s2, SignalTime)
    requires CutsAt(e1, EventTime, cut, m) && CutsAt(e2, EventTime, cut, m) && e1[..m] == e2[..m]
    requires CutsAt(s1, SignalTime, cut, n) && CutsAt(s2, SignalTime, cut, n) && s1[..n] == s2[..n]
    ensures SamePast(Replay(spec, e1, s1, |s1|), Replay(spec, e2, s2, |s2|), cut, p)
  {
    p := EarlyCount(spec, e1, s1[..n], m);
    assert s1[..p] == s1[..n][..p] == s2[..n][..p] == s2[..p];
    assert forall i :: 0 <= i < p ==> s1[i] == s1[..n][i];
    SameEarly(spec, e1, e2, s1, s2, cut, m, p);
    if p < n {
      assert s1[p] == s1[..n][p] == s2[..n][p] == s2[p];
      UsableAgrees(e1, e2, m, Target(spec, s1[p]));
    }
    AllLate(spec, e1, s1, cut, m, n, p);
    AllLate(spec, e2, s2, cut, m, n, p);
    LateTail(spec, e1, s1, cut, m, p, |s1|);
    LateTail(spec, e2, s2, cut, m, p, |s2|);
    PastOf(Replay(spec, e1, s1, p), Replay(spec, e1, s1, |s1|), cut, p);
    PastOf(Replay(spec, e2, s2, p), Replay(spec, e2, s2, |s2|), cut, p);
  }

  /** Causality: two successful runs that agree on everything known up to a moment have the same trades and
      equity points up to that moment - the same first `p` of each - whatever becomes known later. */
  lemma NoLookAhead(spec: Spec, c1: seq<Event>, c2: seq<Event>, s1: seq<Signal>, s2: seq<Signal>, cut: int)
    returns (p: nat)
    requires spec.latencySeconds >= 0 && AgreeUpTo(c1, c2, s1, s2, cut)
    ensures SamePast(Result(spec, c1, s1), Result(spec, c2, s2), cut, p)
  {
    EventLeqTotal();
    SignalLeqTotal();
    SignalsOrdered(s1);
    SignalsOrdered(s2);
    var m := SortedAgree(c1, c2, EventLeq, EventTime, cut);
    var n := SortedAgree(s1, s2, SignalLeq, SignalTime, cut);
    p := ReplaysAgree(spec, Ordered(c1), Ordered(c2), OrderedSignals(s1), OrderedSignals(s2), cut, m, n);
  }

  predicate BothReplayed(spec: Spec, c1: seq<Event>, c2: seq<Event>, s1: seq<Signal>, s2: seq<Signal>) {
    Outcomes(spec, c1, s1).Replayed? && Outcomes(spec, c2, s2).Replayed?
  }

  /** No run under `spec` lets later knowledge change earlier trades or equity points. */
  ghost predicate Causal(spec: Spec) {
    forall c1, c2, s1, s2, cut :: AgreeUpTo(c1, c2, s1, s2, cut) && BothReplayed(spec, c1, c2, s1, s2) ==>
      exists p :: SamePast(Outcomes(spec, c1, s1).ledger, Outcomes(spec, c2, s2).ledger, cut, p)
  }

  lemma OneTrade(spec: Spec, e: Event, s: Signal)
    requires e.available && e.knowledge >= Target(spec, s)
    ensures Result(spec, [e], []).trades == []
    ensures |Result(spec, [e], [s]).trades| == 1 && Result(spec, [e], [s]).trades[0].knowledge == e.knowledge
  {
    var one, first := [s], [e];
    assert one[1..] == [] && first[1..] == [];
    SignalsOrdered(one);
    SignalsOrdered([]);
    assert StableSort(one, SignalLeq) == one && Ordered(first) == first;
    assert FirstUsable(first, Target(spec, s)) == 0;
    assert Replay(spec, first, one, 0).trades == [];
    assert Replay(spec, first, one, 1) == Execute(spec, first, Replay(spec, first, one, 0), s);
  }

  /** With a negative latency a signal that nobody knows yet trades in the past. */
  lemma NegativeLatencyLooksAhead(spec: Spec)
    requires spec.latencySeconds < 0
    ensures !Causal(spec)
  {
    var t := -spec.latencySeconds * SECOND;
    var s, e := Signal(t, t, Buy, 1.0), Event(0, 0, 20, "", 1.0, 1.0, true);
    OneTrade(spec, e, s);
    assert t > 0 && !UpTo(SignalTime, 0)(s);
    assert forall x :: x in [s] ==> x == s;
    FilterNone([s], UpTo(SignalTime, 0));
    var l1, l2 := Outcomes(spec, [e], [s]), Outcomes(spec, [e], []);
    assert l1 == Replayed(Result(spec, [e], [s]), FinalEquity(spec, Ordered([e]), Result(spec, [e], [s])));
    assert AgreeUpTo([e], [e], [s], [], 0);
    forall p: nat ensures !SamePast(l1.ledger, l2.ledger, 0, p) {
      assert TradeTime(l1.ledger.trades[0]) <= 0;
    }
  }

  /** A backtest is free of look-ahead exactly when its latency is not negative; the engine itself does not
      check this, the store that builds its specification does. */
  lemma CausalIffLatency(spec: Spec)
    ensures Causal(spec) <==> spec.latencySeconds >= 0
  {
    if spec.latencySeconds < 0 {
      NegativeLatencyLooksAhead(spec);
    } else {
      forall c1, c2, s1, s2, cut | AgreeUpTo(c1, c2, s1, s2, cut) && BothReplayed(spec, c1, c2, s1, s2)
        ensures exists p :: SamePast(Outcomes(spec, c1, s1).ledger, Outcomes(spec, c2, s2).ledger, cut, p)
      {
        var p := NoLookAhead(spec, c1, c2, s1, s2, cut);
      }
    }
  }

  // ---------------------------------------------------------------- trades in order

  /** The trades so far are in order, and none is later than the event a signal with target `t` trades on. */
  ghost predicate TradesBefore(l: Ledger, events: seq<Event>, t: int) {
    && KeyOrdered(l.trades, TradeTime)
    && (forall i, k :: 0 <= i < |l.trades| && FirstUsable(events, t) <= k < |events| ==>
        TradeTime(l.trades[i]) <= EventTime(events[k]))
  }

  /** What holds before a target holds before a later one. */
  lemma BeforeLater(l: Ledger, events: seq<Event>, t: int, t': int)
    requires TradesBefore(l, events, t) && t <= t'
    ensures TradesBefore(l, events, t')
  {
    UsableMonotone(events, t, t');
  }

  lemma TradesNext(spec: Spec, events: seq<Event>, l: Ledger, s: Signal)
    requires KeyOrdered(events, EventTime) && TradesBefore(l, events, Target(spec, s))
    ensures TradesBefore(Execute(spec, events, l, s), events, Target(spec, s))
  {
    BookAppends(spec, events, l, s);
    if FirstUsable(events, Target(spec, s)) < |events| {
      TradesStep(l, Execute(spec, events, l, s), events, Target(spec, s));
    }
  }

  lemma {:induction false} TradesOrdered(spec: Spec, events: seq<Event>, signals: seq<Signal>, n: nat)
    requires n <= |signals| && KeyOrdered(events, EventTime) && KeyOrdered(signals, SignalTime)
    ensures KeyOrdered(Replay(spec, events, signals, n).trades, TradeTime)
    ensures n > 0 ==> TradesBefore(Replay(spec, events, signals, n), events, Target(spec, signals[n - 1]))
  {
    if n > 0 {
      TradesOrdered(spec, events, signals, n - 1);
      var l, t := Replay(spec, events, signals, n - 1), Target(spec, signals[n - 1]);
      if n > 1 {
        assert SignalTime(signals[n - 2]) <= SignalTime(signals[n - 1]);
        BeforeLater(l, events, Target(spec, signals[n - 2]), t);
      } else {
        assert l.trades == [];
      }
      TradesNext(spec, events, l, signals[n - 1]);
    }
  }

  lemma TradesStep(l: Ledger, l': Ledger, events: seq<Event>, t: int)
    requires TradesBefore(l, events, t) && KeyOrdered(events, EventTime) && FirstUsable(events, t) < |events|
    requires |l'.trades| == |l.trades| + 1 && l'.trades[..|l.trades|] == l.trades
    requires TradeTime(l'.trades[|l.trades|]) == EventTime(events[FirstUsable(events, t)])
    ensures TradesBefore(l', events, t)
  {
    assert forall i :: 0 <= i < |l.trades| ==> l'.trades[i] == l'.trades[..|l.trades|][i];
  }

  /** Trades come in the order in which their events became known, whatever the latency. */
  lemma TradeTimesNeverDecrease(spec: Spec, candles: seq<Event>, signals: seq<Signal>)
    ensures KeyOrdered(Result(spec, candles, signals).trades, TradeTime)
  {
    EventLeqTotal();
    StableSortSorted(candles, EventLeq);
    SignalsOrdered(signals);
    TradesOrdered(spec, Ordered(candles), OrderedSignals(signals), |OrderedSignals(signals)|);
  }

  // ---------------------------------------------------------------- the order of the input

  predicate SameKey(x: Event, y: Event) {
    x.knowledge == y.knowledge && x.priority == y.priority && x.sequence == y.sequence
  }

  /** No two candles have the same sort key. */
  ghost predicate DistinctKeys(candles: seq<Event>) {
    forall x, y :: x in candles && y in candles && SameKey(x, y) ==> x == y
  }

  lemma TieIsSameKey(x: Event, y: Event)
    requires EventLeq(x, y) && EventLeq(y, x)
    ensures SameKey(x, y)
  {
    TextTotal(x.sequence, y.sequence);
  }

  lemma OrderedSame(c1: seq<Event>, c2: seq<Event>)
    requires multiset(c1) == multiset(c2) && DistinctKeys(c1)
    ensures Ordered(c1) == Ordered(c2)
  {
    EventLeqTotal();
    StableSortSorted(c1, EventLeq);
    StableSortSorted(c2, EventLeq);
    StableSortMembers(c1, EventLeq);
    forall x, y | x in Ordered(c1) && y in Ordered(c1) && EventLeq(x, y) && EventLeq(y, x) ensures x == y {
      TieIsSameKey(x, y);
    }
    SortedUnique(Ordered(c1), Ordered(c2), EventLeq);
  }

  /** A replay does not depend on the order in which the candles are supplied. */
  lemma CandleOrderIrrelevant(spec: Spec, c1: seq<Event>, c2: seq<Event>, signals: seq<Signal>)
    requires multiset(c1) == multiset(c2) && DistinctKeys(c1)
    ensures Outcomes(spec, c1, signals) == Outcomes(spec, c2, signals)
  {
    OrderedSame(c1, c2);
  }

  // ---------------------------------------------------------------- the ledger adds up

  /** What the trades say was paid and received. */
  function CashFlow(trades: seq<Trade>): real {
    if trades == [] then 0.0 else
      var t := trades[|trades| - 1];
      CashFlow(trades[..|trades| - 1]) + (if t.side == Buy then -(t.price * t.filled) else t.price * t.filled) - t.fee
  }

  /** What the trades say was bought and sold. */
  function Holdings(trades: seq<Trade>): real {
    if trades == [] then 0.0 else
      var t := trades[|trades| - 1];
      Holdings(trades[..|trades| - 1]) + if t.side == Buy then t.filled else -t.filled
  }

  /** Cash and position are what the trades add up to, now and at every equity point. */
  ghost predicate Reconciled(spec: Spec, l: Ledger) {
    && |l.trades| == |l.points|
    && l.cash == spec.initialCash + CashFlow(l.trades) && l.position == Holdings(l.trades)
    && (forall i :: 0 <= i < |l.trades| ==> PointReconciled(spec, l, i))
  }

  ghost predicate PointReconciled(spec: Spec, l: Ledger, i: nat)
    requires i < |l.trades| && i < |l.points|
  {
    var done, t := l.trades[..i + 1], l.trades[i];
    && l.points[i].cash == spec.initialCash + CashFlow(done) && l.points[i].position == Holdings(done)
    && l.points[i].knowledge == t.knowledge && l.points[i].occurred == t.occurred
    && t.filled + t.remaining == t.requested && t.filled <= t.requested && (t.whole <==> t.filled == t.requested)
  }

  lemma TradeAddsUp(trades: seq<Trade>, t: Trade)
    ensures CashAfter(CashFlow(trades), t) == CashFlow(trades + [t])
    ensures PositionAfter(Holdings(trades), t) == Holdings(trades + [t])
  {
    var all := trades + [t];
    assert all[..|all| - 1] == trades;
  }

  lemma BookReconciles(spec: Spec, l: Ledger, s: Signal, e: Event)
    requires Reconciled(spec, l)
    ensures Reconciled(spec, Book(l, TradeOn(spec, s, e), e))
  {
    var t := TradeOn(spec, s, e);
    var l' := Book(l, t, e);
    TradeAddsUp(l.trades, t);
    assert l'.cash == spec.initialCash + CashFlow(l'.trades);
    forall i | 0 <= i < |l'.trades| ensures PointReconciled(spec, l', i) {
      if i < |l.trades| {
        assert PointReconciled(spec, l, i);
        assert l'.trades[..i + 1] == l.trades[..i + 1];
      } else {
        assert l'.trades[..i + 1] == l'.trades;
      }
    }
  }

  lemma {:induction false} ReplayReconciles(spec: Spec, events: seq<Event>, signals: seq<Signal>, n: nat)
    requires n <= |signals|
    ensures Reconciled(spec, Replay(spec, events, signals, n))
  {
    if n > 0 {
      ReplayReconciles(spec, events, signals, n - 1);
      var e := ExecutionEvent(spec, events, signals[n - 1]);
      if e.Some? { BookReconciles(spec, Replay(spec, events, signals, n - 1), signals[n - 1], e.value); }
    }
  }

  /** Conservation: at every equity point, and at the end, cash and position are the initial cash and what
      the reported trades and fees add up to. */
  lemma LedgerAddsUp(spec: Spec, candles: seq<Event>, signals: seq<Signal>)
    ensures Reconciled(spec, Result(spec, candles, signals))
  {
    ReplayReconciles(spec, Ordered(candles), OrderedSignals(signals), |OrderedSignals(signals)|);
  }

  lemma ProductGrows(x: real, a: real, b: real)
    requires x >= 0.0 && a <= b
    ensures x * a <= x * b
  {}

  lemma BuyCosts(cash: real, position: real, filled: real, close: real, price: real, fee: real)
    requires filled >= 0.0 && fee >= 0.0 && close <= price
    ensures cash - (price * filled + fee) + (position + filled) * close <= cash + position * close
  {
    ProductGrows(filled, close, price);
    Spread(cash, position, filled, close, price * filled, fee);
  }

  lemma SellCosts(cash: real, position: real, filled: real, close: real, price: real, fee: real)
    requires filled >= 0.0 && fee >= 0.0 && price <= close
    ensures cash + (price * filled - fee) + (position - filled) * close <= cash + position * close
  {
    ProductGrows(filled, price, close);
    Spread(cash, position, -filled, close, -(price * filled), fee);
  }

  lemma FeeNotNegative(price: real, filled: real, rate: real)
    requires price >= 0.0 && filled >= 0.0 && rate >= 0.0
    ensures price * filled * rate >= 0.0
  {
    ProductGrows(price, 0.0, filled);
    ProductGrows(price * filled, 0.0, rate);
  }

  lemma TradeSigns(spec: Spec, s: Signal, e: Event)
    requires 0.0 <= spec.slippageBps <= 10000.0 && spec.feeRate >= 0.0 && spec.participation >= 0.0
    requires e.close >= 0.0 && e.volume >= 0.0 && s.quantity >= 0.0
    ensures var t := TradeOn(spec, s, e);
      && t.filled >= 0.0 && t.fee >= 0.0 && (if s.side == Buy then e.close <= t.price else 0.0 <= t.price <= e.close)
  {
    var t := TradeOn(spec, s, e);
    ProductGrows(e.volume, 0.0, spec.participation);
    PriceBounds(e.close, spec.slippageBps / 10000.0);
    FeeNotNegative(t.price, t.filled, spec.feeRate);
  }

  /** Trading never raises the equity marked at the event's close, when prices, quantities and the fee are
      not negative and slippage is between 0 and 10000 basis points. */
  lemma TradingCosts(spec: Spec, l: Ledger, s: Signal, e: Event)
    requires 0.0 <= spec.slippageBps <= 10000.0 && spec.feeRate >= 0.0 && spec.participation >= 0.0
    requires e.close >= 0.0 && e.volume >= 0.0 && s.quantity >= 0.0
    ensures var l' := Book(l, TradeOn(spec, s, e), e); l'.cash + l'.position * e.close <= l.cash + l.position * e.close
  {
    TradeSigns(spec, s, e);
    BookCosts(l, TradeOn(spec, s, e), e);
  }

  lemma BookCosts(l: Ledger, t: Trade, e: Event)
    requires t.filled >= 0.0 && t.fee >= 0.0 && (if t.side == Buy then e.close <= t.price else t.price <= e.close)
    ensures Book(l, t, e).cash + Book(l, t, e).position * e.close <= l.cash + l.position * e.close
  {
    if t.side == Buy {
      BuyCosts(l.cash, l.position, t.filled, e.close, t.price, t.fee);
    } else {
      SellCosts(l.cash, l.position, t.filled, e.close, t.price, t.fee);
    }
  }

  lemma PriceBounds(close: real, ratio: real)
    requires close >= 0.0 && 0.0 <= ratio <= 1.0
    ensures close * (1.0 + ratio) >= close >= close * (1.0 - ratio) >= 0.0
  {}

  lemma Spread(cash: real, position: real, moved: real, close: real, paid: real, fee: real)
    requires fee >= 0.0 && moved * close <= paid
    ensures cash - (paid + fee) + (position + moved) * close <= cash + position * close
  {
    assert (position + moved) * close == position * close + moved * close;
  }
}
