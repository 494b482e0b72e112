/** The candle backtest (`run_candle_backtest`): events and signals are put in the order in which they
    became known, and each signal trades on the first usable event after its latency. */
module BacktestReplay {
  import opened Ordering

  const SECOND := 1_000_000

  datatype Side = Buy | Sell

  datatype Event = Event(occurred: int, knowledge: int, priority: int, sequence: string, close: real, volume: real,
                         available: bool)

  datatype Signal = Signal(occurred: int, knowledge: int, side: Side, quantity: real)

  datatype Spec = Spec(initialCash: real, feeRate: real, slippageBps: real, latencySeconds: int, participation: real)

  datatype Trade = Trade(side: Side, requested: real, filled: real, remaining: real, price: real, fee: real,
                         whole: bool, occurred: int, knowledge: int)

  datatype Point = Point(occurred: int, knowledge: int, cash: real, position: real, equity: real)

  datatype Ledger = Ledger(cash: real, position: real, trades: seq<Trade>, points: seq<Point>)

  datatype Outcome = LookAhead | Replayed(ledger: Ledger, finalEquity: real)

  // ---------------------------------------------------------------- the order of events and signals

  /** `_event_sort_key`: by knowledge time, source priority, stable sequence. */
  predicate EventLeq(a: Event, b: Event) {
    a.knowledge < b.knowledge || (a.knowledge == b.knowledge &&
      (a.priority < b.priority || (a.priority == b.priority && TextLeq(a.sequence, b.sequence))))
  }

  lemma EventLeqTotal()
    ensures TotalPreorder(EventLeq)
  {
    forall x: Event, y: Event ensures EventLeq(x, y) || EventLeq(y, x) { TextTotal(x.sequence, y.sequence); }
    forall x: Event, y: Event, z: Event | EventLeq(x, y) && EventLeq(y, z) ensures EventLeq(x, z) {
      if TextLeq(x.sequence, y.sequence) && TextLeq(y.sequence, z.sequence) {
        TextTransitive(x.sequence, y.sequence, z.sequence);
      }
    }
  }

  /** `_signal_sort_key`: by knowledge time, occurrence, position in the list. */
  predicate IndexedLeq(a: (int, Signal), b: (int, Signal)) {
    a.1.knowledge < b.1.knowledge || (a.1.knowledge == b.1.knowledge &&
      (a.1.occurred < b.1.occurred || (a.1.occurred == b.1.occurred && a.0 <= b.0)))
  }

  predicate SignalLeq(a: Signal, b: Signal) {
    a.knowledge < b.knowledge || (a.knowledge == b.knowledge && a.occurred <= b.occurred)
  }

  function Enumerate(signals: seq<Signal>, from: int): seq<(int, Signal)> {
    if signals == [] then [] else [(from, signals[0])] + Enumerate(signals[1..], from + 1)
  }

  function Seconds<A, B>(s: seq<(A, B)>): (r: seq<B>)
    ensures |r| == |s| && forall i :: 0 <= i < |s| ==> r[i] == s[i].1
  {
    if s == [] then [] else [s[0].1] + Seconds(s[1..])
  }

  /** `sorted(enumerate(signals), key=...)` without the positions. */
  function OrderedSignals(signals: seq<Signal>): seq<Signal> { Seconds(StableSort(Enumerate(signals, 0), IndexedLeq)) }

  lemma {:induction false} InsertIndexed(x: (int, Signal), s: seq<(int, Signal)>)
    requires forall y :: y in s ==> x.0 < y.0
    ensures Seconds(Insert(x, s, IndexedLeq)) == Insert(x.1, Seconds(s), SignalLeq)
  {
    if s != [] {
      assert s[0] in s;
      assert Seconds(s)[1..] == Seconds(s[1..]);
      if IndexedLeq(x, s[0]) {
        assert ([x] + s)[1..] == s;
      } else {
        InsertIndexed(x, s[1..]);
        var r := Insert(x, s[1..], IndexedLeq);
        assert ([s[0]] + r)[1..] == r;
      }
    }
  }

  lemma SortConsIndexed(x: (int, Signal), s: seq<(int, Signal)>)
    requires forall y :: y in s ==> x.0 < y.0
    ensures Seconds(StableSort([x] + s, IndexedLeq)) == Insert(x.1, Seconds(StableSort(s, IndexedLeq)), SignalLeq)
  {
    assert ([x] + s)[1..] == s;
    StableSortMembers(s, IndexedLeq);
    InsertIndexed(x, StableSort(s, IndexedLeq));
  }

  ghost predicate Positioned(pairs: seq<(int, Signal)>) {
    forall i, j :: 0 <= i < j < |pairs| ==> pairs[i].0 < pairs[j].0
  }

  lemma {:induction false} EnumerateIs(signals: seq<Signal>, from: int)
    ensures var e := Enumerate(signals, from);
      |e| == |signals| && forall i :: 0 <= i < |e| ==> e[i] == (from + i, signals[i])
  {
    if signals != [] { EnumerateIs(signals[1..], from + 1); }
  }

  lemma SortStep(x: (int, Signal), rest: seq<(int, Signal)>)
    requires forall y :: y in rest ==> x.0 < y.0
    requires Seconds(StableSort(rest, IndexedLeq)) == StableSort(Seconds(rest), SignalLeq)
    ensures Seconds(StableSort([x] + rest, IndexedLeq)) == StableSort(Seconds([x] + rest), SignalLeq)
  {
    SortConsIndexed(x, rest);
    assert Seconds([x] + rest) == [x.1] + Seconds(rest);
    assert ([x.1] + Seconds(rest))[1..] == Seconds(rest);
  }

  lemma {:induction false} SortPositioned(pairs: seq<(int, Signal)>)
    requires Positioned(pairs)
    ensures Seconds(StableSort(pairs, IndexedLeq)) == StableSort(Seconds(pairs), SignalLeq)
  {
    if pairs != [] {
      SortPositioned(pairs[1..]);
      SortStep(pairs[0], pairs[1..]);
      assert pairs == [pairs[0]] + pairs[1..];
    }
  }

  /** Sorting with the position as the last key is sorting stably without it. */
  lemma PositionsMeanStable(signals: seq<Signal>, from: int)
    ensures Seconds(StableSort(Enumerate(signals, from), IndexedLeq)) == StableSort(signals, SignalLeq)
  {
    EnumerateIs(signals, from);
    SortPositioned(Enumerate(signals, from));
    assert Seconds(Enumerate(signals, from)) == signals;
  }

  // ---------------------------------------------------------------- execution

  predicate LooksAhead(s: Signal) { s.knowledge < s.occurred }

  predicate Usable(e: Event, target: int) { e.available && e.knowledge >= target }

  /** The position of the first usable event; the length if there is none. */
  function FirstUsable(events: seq<Event>, target: int): (k: nat)
    ensures k <= |events| && (k < |events| ==> Usable(events[k], target))
    ensures forall j :: 0 <= j < k ==> !Usable(events[j], target)
  {
    if events == [] || Usable(events[0], target) then 0 else 1 + FirstUsable(events[1..], target)
  }

  function Target(spec: Spec, s: Signal): int { s.knowledge + spec.latencySeconds * SECOND }

  /** `_execution_event` */
  function ExecutionEvent(spec: Spec, events: seq<Event>, s: Signal): Option<Event> {
    var k := FirstUsable(events, Target(spec, s));
    if k < |events| then Some(events[k]) else None
  }

  function FillPrice(spec: Spec, close: real, side: Side): real {
    var ratio := spec.slippageBps / 10000.0;
    if side == Buy then close * (1.0 + ratio) else close * (1.0 - ratio)
  }

  function Min(a: real, b: real): real { if b < a then b else a }

  function TradeOn(spec: Spec, s: Signal, e: Event): Trade {
    var filled := Min(s.quantity, e.volume * spec.participation);
    var price := FillPrice(spec, e.close, s.side);
    Trade(s.side, s.quantity, filled, s.quantity - filled, price, price * filled * spec.feeRate,
          s.quantity - filled == 0.0, e.occurred, e.knowledge)
  }

  function CashAfter(cash: real, t: Trade): real {
    if t.side == Buy then cash - (t.price * t.filled + t.fee) else cash + (t.price * t.filled - t.fee)
  }

  function PositionAfter(position: real, t: Trade): real {
    if t.side == Buy then position + t.filled else position - t.filled
  }

  function PointAt(e: Event, cash: real, position: real): Point {
    Point(e.occurred, e.knowledge, cash, position, cash + position * e.close)
  }

  /** The ledger after a trade. */
  function Book(l: Ledger, t: Trade, e: Event): Ledger {
    var cash, position := CashAfter(l.cash, t), PositionAfter(l.position, t);
    Ledger(cash, position, l.trades + [t], l.points + [PointAt(e, cash, position)])
  }

  /** The ledger after one more signal. */
  function Execute(spec: Spec, events: seq<Event>, l: Ledger, s: Signal): Ledger {
    match ExecutionEvent(spec, events, s)
    case None => l
    case Some(e) => Book(l, TradeOn(spec, s, e), e)
  }

  /** The ledger after the first `n` signals. */
  function Replay(spec: Spec, events: seq<Event>, signals: seq<Signal>, n: nat): Ledger
    requires n <= |signals|
  {
    if n == 0 then Ledger(spec.initialCash, 0.0, [], [])
    else Execute(spec, events, Replay(spec, events, signals, n - 1), signals[n - 1])
  }

  function FinalEquity(spec: Spec, events: seq<Event>, l: Ledger): real {
    if events == [] then spec.initialCash else l.cash + l.position * events[|events| - 1].close
  }

  function Ordered(candles: seq<Event>): seq<Event> { StableSort(candles, EventLeq) }

  function Outcomes(spec: Spec, candles: seq<Event>, signals: seq<Signal>): Outcome {
    if exists s :: s in signals && LooksAhead(s) then LookAhead else
      var l := Result(spec, candles, signals);
      Replayed(l, FinalEquity(spec, Ordered(candles), l))
  }

  function Result(spec: Spec, candles: seq<Event>, signals: seq<Signal>): Ledger {
    var ordered := OrderedSignals(signals);
    Replay(spec, Ordered(candles), ordered, |ordered|)
  }

  method TradeSignal(spec: Spec, s: Signal, e: Event) returns (t: Trade)
    ensures t == TradeOn(spec, s, e)
  {
    var filled := Min(s.quantity, e.volume * spec.participation);
    var remaining := s.quantity - filled;
    var price := FillPrice(spec, e.close, s.side);
    var notional := price * filled;
    var fee := notional * spec.feeRate;
    t := Trade(s.side, s.quantity, filled, remaining, price, fee, remaining == 0.0, e.occurred, e.knowledge);
  }

  method ReplaySignals(spec: Spec, events: seq<Event>, ordered: seq<Signal>) returns (l: Ledger)
    ensures l == Replay(spec, events, ordered, |ordered|)
  {
    var cash, position := spec.initialCash, 0.0;
    var trades: seq<Trade>, points: seq<Point> := [], [];
    var n := 0;
    while n < |ordered|
      invariant 0 <= n <= |ordered|
      invariant Ledger(cash, position, trades, points) == Replay(spec, events, ordered, n)
    {
      var event := ExecutionEvent(spec, events, ordered[n]);
      if event.Some? {
        var trade := TradeSignal(spec, ordered[n], event.value);
        cash, position := CashAfter(cash, trade), PositionAfter(position, trade);
        trades := trades + [trade];
        points := points + [PointAt(event.value, cash, position)];
      }
      n := n + 1;
    }
    l := Ledger(cash, position, trades, points);
  }

  method RunCandleBacktest(spec: Spec, candles: seq<Event>, signals: seq<Signal>) returns (r: Outcome)
    ensures r == Outcomes(spec, candles, signals)
  {
    if exists s :: s in signals && LooksAhead(s) { return LookAhead; }
    var events := Ordered(candles);
    var ledger := ReplaySignals(spec, events, OrderedSignals(signals));
    r := Replayed(ledger, FinalEquity(spec, events, ledger));
  }
}
