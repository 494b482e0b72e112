/** What a backtest reports, in terms of the candles and signals it was given. */
module BacktestMeaning {
  import opened Ordering
  import opened BacktestReplay
  import opened BacktestCausality

  /** No candle comes after `e`: by knowledge time, source priority and stable sequence. */
  ghost predicate NoneAfter(candles: seq<Event>, e: Event) {
    e in candles && forall c :: c in candles ==>
      && c.knowledge <= e.knowledge
      && (c.knowledge == e.knowledge ==> c.priority <= e.priority)
      && (c.knowledge == e.knowledge && c.priority == e.priority ==> TextLeq(c.sequence, e.sequence))
  }

  /** The signal may trade on the candle: it is available, and known once the latency is over. */
  predicate MayTrade(spec: Spec, s: Signal, c: Event) {
    c.available && s.knowledge + spec.latencySeconds * 1_000_000 <= c.knowledge
  }

  /** `e` is a first candle that the signal may trade on. */
  ghost predicate FirstFor(spec: Spec, candles: seq<Event>, s: Signal, e: Event) {
    e in candles && MayTrade(spec, s, e) && forall c :: c in candles && MayTrade(spec, s, c) ==>
      && e.knowledge <= c.knowledge
      && (c.knowledge == e.knowledge ==> e.priority <= c.priority)
      && (c.knowledge == e.knowledge && c.priority == e.priority ==> TextLeq(e.sequence, c.sequence))
  }

  ghost predicate Tradable(spec: Spec, candles: seq<Event>, s: Signal) {
    exists c :: c in candles && MayTrade(spec, s, c)
  }

  ghost function TradableOn(spec: Spec, candles: seq<Event>): Signal -> bool { s => Tradable(spec, candles, s) }

  /** `t` is the trade of the signal `s` on the candle `e`. */
  ghost predicate TradeOf(spec: Spec, s: Signal, e: Event, t: Trade) {
    && t.side == s.side && t.requested == s.quantity
    && t.filled <= s.quantity && t.filled <= e.volume * spec.participation
    && (t.filled == s.quantity || t.filled == e.volume * spec.participation)
    && t.filled + t.remaining == t.requested && (t.whole <==> t.remaining == 0.0)
    && (t.side == Buy ==> t.price == e.close * (1.0 + spec.slippageBps / 10000.0))
    && (t.side == Sell ==> t.price == e.close * (1.0 - spec.slippageBps / 10000.0))
    && t.fee == t.price * t.filled * spec.feeRate
    && t.occurred == e.occurred && t.knowledge == e.knowledge
  }

  /** `p` is the equity point at the candle `e`. */
  predicate PointOn(p: Point, e: Event) {
    p.occurred == e.occurred && p.knowledge == e.knowledge && p.equity == p.cash + p.position * e.close
  }

  /** The ledger books, one after the other, a trade and a point for each signal of `who` on the candle in `on`. */
  ghost predicate Books(spec: Spec, candles: seq<Event>, who: seq<Signal>, on: seq<Event>, l: Ledger) {
    && |who| == |on| == |l.trades| == |l.points|
    && forall i :: 0 <= i < |who| ==>
         && FirstFor(spec, candles, who[i], on[i])
         && TradeOf(spec, who[i], on[i], l.trades[i]) && PointOn(l.points[i], on[i])
  }

  lemma SortedEvents(candles: seq<Event>)
    ensures SortedBy(Ordered(candles), EventLeq)
    ensures forall c :: c in Ordered(candles) <==> c in candles
  {
    EventLeqTotal();
    StableSortSorted(candles, EventLeq);
    StableSortMembers(candles, EventLeq);
  }

  lemma LastIsLast(candles: seq<Event>)
    requires candles != []
    ensures NoneAfter(candles, Ordered(candles)[|candles| - 1])
  {
    SortedEvents(candles);
    var o := Ordered(candles);
    forall c | c in candles ensures EventLeq(c, o[|o| - 1]) {
      var i :| 0 <= i < |o| && o[i] == c;
      TextTotal(c.sequence, c.sequence);
    }
  }

  lemma MayTradeIs(spec: Spec, s: Signal, c: Event)
    ensures MayTrade(spec, s, c) <==> Usable(c, Target(spec, s))
  {}

  lemma FirstAmong(o: seq<Event>, target: int, i: nat)
    requires SortedBy(o, EventLeq) && i < |o| && Usable(o[i], target)
    ensures FirstUsable(o, target) <= i && EventLeq(o[FirstUsable(o, target)], o[i])
  {
    TextTotal(o[i].sequence, o[i].sequence);
  }

  lemma UsableFirst(spec: Spec, candles: seq<Event>, s: Signal, c: Event)
    requires c in candles && MayTrade(spec, s, c)
    ensures var k := FirstUsable(Ordered(candles), Target(spec, s));
      k < |Ordered(candles)| && EventLeq(Ordered(candles)[k], c)
  {
    SortedEvents(candles);
    MayTradeIs(spec, s, c);
    var i :| 0 <= i < |Ordered(candles)| && Ordered(candles)[i] == c;
    FirstAmong(Ordered(candles), Target(spec, s), i);
  }

  lemma ExecutionIsFirst(spec: Spec, candles: seq<Event>, s: Signal)
    ensures var e := ExecutionEvent(spec, Ordered(candles), s);
      if e.Some? then FirstFor(spec, candles, s, e.value) else !Tradable(spec, candles, s)
  {
    var o, k := Ordered(candles), FirstUsable(Ordered(candles), Target(spec, s));
    forall c | c in candles && MayTrade(spec, s, c) ensures k < |o| && EventLeq(o[k], c) {
      UsableFirst(spec, candles, s, c);
    }
    if k < |o| {
      SortedEvents(candles);
      assert o[k] in o;
      MayTradeIs(spec, s, o[k]);
    }
  }

  lemma BookMeans(spec: Spec, s: Signal, e: Event, cash: real, position: real)
    ensures TradeOf(spec, s, e, TradeOn(spec, s, e)) && PointOn(PointAt(e, cash, position), e)
  {}

  lemma BooksNext(spec: Spec, candles: seq<Event>, who: seq<Signal>, on: seq<Event>, l: Ledger, s: Signal, e: Event)
    requires Books(spec, candles, who, on, l) && FirstFor(spec, candles, s, e)
    ensures Books(spec, candles, who + [s], on + [e], Book(l, TradeOn(spec, s, e), e))
  {
    var t := TradeOn(spec, s, e);
    var l' := Book(l, t, e);
    BookMeans(spec, s, e, CashAfter(l.cash, t), PositionAfter(l.position, t));
    forall i | 0 <= i < |who| + 1
      ensures FirstFor(spec, candles, (who + [s])[i], (on + [e])[i])
      ensures TradeOf(spec, (who + [s])[i], (on + [e])[i], l'.trades[i]) && PointOn(l'.points[i], (on + [e])[i])
    {
      if i < |who| {
        assert FirstFor(spec, candles, who[i], on[i]);
      }
    }
  }

  lemma {:induction false} ReplayBooks(spec: Spec, candles: seq<Event>, signals: seq<Signal>, n: nat)
    returns (on: seq<Event>)
    requires n <= |signals|
    ensures Books(spec, candles, Filter(signals[..n], TradableOn(spec, candles)), on,
                  Replay(spec, Ordered(candles), signals, n))
  {
    if n == 0 {
      on := [];
    } else {
      on := ReplayBooks(spec, candles, signals, n - 1);
      var l, s := Replay(spec, Ordered(candles), signals, n - 1), signals[n - 1];
      var who := Filter(signals[..n - 1], TradableOn(spec, candles));
      FilterSnoc(signals, n - 1, TradableOn(spec, candles));
      ExecutionIsFirst(spec, candles, s);
      var e := ExecutionEvent(spec, Ordered(candles), s);
      if e.Some? {
        BooksNext(spec, candles, who, on, l, s, e.value);
        on := on + [e.value];
      }
    }
  }

  /** The signals that trade, as they become known; then as they occurred, then as they were given. */
  /** In the order in which the signals became known, and for those of one moment the order in which they occurred. */
  ghost predicate InTime(signals: seq<Signal>) {
    forall i, j :: 0 <= i < j < |signals| ==>
      && signals[i].knowledge <= signals[j].knowledge
      && (signals[i].knowledge == signals[j].knowledge ==> signals[i].occurred <= signals[j].occurred)
  }

  /** The final equity: the initial cash and what the trades add up to, with the holdings valued at the close of a
      last candle. */
  ghost predicate Closes(spec: Spec, candles: seq<Event>, trades: seq<Trade>, final: real) {
    if candles == [] then final == spec.initialCash
    else exists e ::
      NoneAfter(candles, e) && final == spec.initialCash + CashFlow(trades) + Holdings(trades) * e.close
  }

  lemma Traders(spec: Spec, candles: seq<Event>, signals: seq<Signal>)
    ensures var who := Filter(OrderedSignals(signals), TradableOn(spec, candles));
      who == StableSort(Filter(signals, TradableOn(spec, candles)), SignalLeq) && InTime(who)
  {
    SignalsOrdered(signals);
    SignalLeqTotal();
    FilterSort(signals, SignalLeq, TradableOn(spec, candles));
    StableSortSorted(Filter(signals, TradableOn(spec, candles)), SignalLeq);
  }

  lemma EquityCloses(spec: Spec, candles: seq<Event>, l: Ledger)
    requires Reconciled(spec, l)
    ensures Closes(spec, candles, l.trades, FinalEquity(spec, Ordered(candles), l))
  {
    if candles != [] {
      LastIsLast(candles);
      var e := Ordered(candles)[|candles| - 1];
      assert NoneAfter(candles, e);
    }
  }

  lemma ResultBooks(spec: Spec, candles: seq<Event>, signals: seq<Signal>) returns (who: seq<Signal>, on: seq<Event>)
    ensures Books(spec, candles, who, on, Result(spec, candles, signals)) && InTime(who)
    ensures who == StableSort(Filter(signals, TradableOn(spec, candles)), SignalLeq)
  {
    var ordered := OrderedSignals(signals);
    who := Filter(ordered, TradableOn(spec, candles));
    on := ReplayBooks(spec, candles, ordered, |ordered|);
    FilterWhole(ordered, TradableOn(spec, candles));
    Traders(spec, candles, signals);
  }

  /** What a backtest answers. It fails exactly when a signal is known before it occurs. Otherwise each signal that may
      trade on some candle trades once, in time, on a first such candle, and the final equity is what is left. */
  lemma BacktestReports(spec: Spec, candles: seq<Event>, signals: seq<Signal>)
    returns (who: seq<Signal>, on: seq<Event>)
    ensures var r := Outcomes(spec, candles, signals);
      && (r == LookAhead <==> exists s :: s in signals && s.knowledge < s.occurred)
      && (r.Replayed? ==> Books(spec, candles, who, on, r.ledger) && InTime(who))
      && (r.Replayed? ==> Closes(spec, candles, r.ledger.trades, r.finalEquity))
    ensures who == StableSort(Filter(signals, TradableOn(spec, candles)), SignalLeq)
  {
    who, on := ResultBooks(spec, candles, signals);
    LedgerAddsUp(spec, candles, signals);
    EquityCloses(spec, candles, Result(spec, candles, signals));
    LookAheadIs(signals);
  }

  lemma LookAheadIs(signals: seq<Signal>)
    ensures (exists s :: s in signals && LooksAhead(s)) <==> exists s :: s in signals && s.knowledge < s.occurred
  {}
}
