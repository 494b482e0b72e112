/** The subscription gate of the analysis page: replies carry no subscription id, so the client matches them
    to its subscriptions by order and drops what belongs to a subscription it has since replaced. */
module SubscriptionGate {
  import opened Ordering

  datatype Purpose = Normal | Recovery
  datatype Pending = Pending(generation: nat, purpose: Purpose)

  datatype Gate = Gate(next: nat, current: nat, accepted: Option<nat>, pending: seq<Pending>)

  const INITIAL := Gate(0, 0, None, [])

  /** A message after the stream layer: the answer to a subscription, an error, or data. */
  datatype Message = Session | Failure | Data

  function Recorded(g: Gate, purpose: Purpose): Gate {
    Gate(g.next + 1, g.next + 1, None, g.pending + [Pending(g.next + 1, purpose)])
  }

  function Shifted(g: Gate): Gate { if g.pending == [] then g else g.(pending := g.pending[1..]) }

  predicate HeadIsCurrent(g: Gate) { g.pending != [] && g.pending[0].generation == g.current }

  predicate CurrentAccepted(g: Gate) { g.current > 0 && g.accepted == Some(g.current) }

  /** The gate after a message, and whether the message is applied to the page's state. */
  function Dispatched(g: Gate, m: Message): (Gate, bool) {
    match m
    case Session => (if HeadIsCurrent(g) then Shifted(g).(accepted := Some(g.current)) else Shifted(g), false)
    case Failure => if g.pending != [] then (Shifted(g), HeadIsCurrent(g)) else (g, CurrentAccepted(g))
    case Data => (g, CurrentAccepted(g))
  }

  class GateObject {
    var nextGeneration: nat
    var currentGeneration: nat
    var acceptedGeneration: Option<nat>
    var pendingGenerations: seq<Pending>

    function Value(): Gate
      reads this
    {
      Gate(nextGeneration, currentGeneration, acceptedGeneration, pendingGenerations)
    }

    constructor ()
      ensures Value() == INITIAL
    {
      nextGeneration, currentGeneration, acceptedGeneration, pendingGenerations := 0, 0, None, [];
    }

    method RecordSubscriptionGeneration(purpose: Purpose)
      modifies this
      ensures Value() == Recorded(old(Value()), purpose)
    {
      nextGeneration := nextGeneration + 1;
      currentGeneration := nextGeneration;
      acceptedGeneration := None;
      pendingGenerations := pendingGenerations + [Pending(currentGeneration, purpose)];
    }

    method Shift() returns (first: Option<Pending>)
      modifies this`pendingGenerations
      ensures Value() == Shifted(old(Value()))
      ensures first == if old(pendingGenerations) == [] then None else Some(old(pendingGenerations)[0])
    {
      if pendingGenerations == [] { return None; }
      first := Some(pendingGenerations[0]);
      pendingGenerations := pendingGenerations[1..];
    }

    method AcceptSubscriptionGeneration() returns (accepted: Option<Purpose>)
      modifies this
      ensures Value() == Dispatched(old(Value()), Session).0
      ensures accepted == if HeadIsCurrent(old(Value())) then Some(old(pendingGenerations)[0].purpose) else None
    {
      var pending := Shift();
      if pending == None || pending.value.generation != currentGeneration { return None; }
      acceptedGeneration := Some(pending.value.generation);
      accepted := Some(pending.value.purpose);
    }

    method RejectSubscriptionGeneration() returns (isCurrent: bool)
      modifies this
      ensures Value() == Shifted(old(Value())) && isCurrent == HeadIsCurrent(old(Value()))
    {
      var pending := Shift();
      isCurrent := pending.Some? && pending.value.generation == currentGeneration;
    }

    /** The part of the socket's message handler that decides whether a message reaches the page. */
    method Dispatch(m: Message) returns (applied: bool)
      modifies this
      ensures (Value(), applied) == Dispatched(old(Value()), m)
    {
      if m == Session {
        var accepted := AcceptSubscriptionGeneration();
        return false;
      }
      if m == Failure && pendingGenerations != [] {
        applied := RejectSubscriptionGeneration();
      } else {
        applied := currentGeneration > 0 && acceptedGeneration == Some(currentGeneration);
      }
    }
  }

  // ---------------------------------------------------------------- the protocol

  /** What happens at the client: it subscribes, or a message reaches it. A subscription is answered with a session,
      refused with an error, or answered with `snapshot_required`, which the page handles before its gate. `Late` is
      an error about a subscription that had already been answered with a session. */
  datatype Step = Subscribe(purpose: Purpose) | Answered | Refused | SnapshotRequired | Delivered | Late

  /** `served` subscriptions have been answered; `live` is the last one answered with a session, whose data the
      server sends. */
  datatype World = World(gate: Gate, served: nat, live: Option<nat>)

  const START := World(INITIAL, 0, None)

  /** The server answers subscriptions one by one, in order, only after they were sent, and sends data and late
      errors only for a subscription it answered with a session. */
  predicate Possible(w: World, s: Step) {
    match s
    case Subscribe(_) => true
    case Answered => w.served < w.gate.next
    case Refused => w.served < w.gate.next
    case SnapshotRequired => w.served < w.gate.next
    case Delivered => w.live.Some?
    case Late => w.live.Some?
  }

  function Next(w: World, s: Step): World {
    match s
    case Subscribe(purpose) => w.(gate := Recorded(w.gate, purpose))
    case Answered => World(Dispatched(w.gate, Session).0, w.served + 1, Some(w.served + 1))
    case Refused => World(Dispatched(w.gate, Failure).0, w.served + 1, w.live)
    case SnapshotRequired => w.(served := w.served + 1)
    case Delivered => w.(gate := Dispatched(w.gate, Data).0)
    case Late => w.(gate := Dispatched(w.gate, Failure).0)
  }

  function After(w: World, steps: seq<Step>, n: nat): World
    requires n <= |steps|
  {
    if n == 0 then w else Next(After(w, steps, n - 1), steps[n - 1])
  }

  /** An error about an old subscription reaches the client while newer ones are unanswered. */
  predicate Disturbed(w: World, s: Step) { s == Late && w.gate.pending != [] }

  /** The first `n` steps are possible one after the other, and none is a disturbance. */
  predicate Calm(w: World, steps: seq<Step>, n: nat)
    requires n <= |steps|
  {
    n == 0 || (Calm(w, steps, n - 1) && Possible(After(w, steps, n - 1), steps[n - 1])
               && !Disturbed(After(w, steps, n - 1), steps[n - 1]))
  }

  // ---------------------------------------------------------------- no stale data

  /** How many of the first `n` steps were `snapshot_required` replies. */
  function Snapshots(steps: seq<Step>, n: nat): nat
    requires n <= |steps|
  {
    if n == 0 then 0 else Snapshots(steps, n - 1) + if steps[n - 1] == SnapshotRequired then 1 else 0
  }

  /** The queue is the unanswered subscriptions in order, and before them one entry for each snapshot reply; the
      current subscription counts as accepted only when there was none. */
  ghost predicate Trailing(w: World, snapshots: nat) {
    && w.gate.next == w.gate.current && snapshots <= w.served <= w.gate.next
    && w.served + |w.gate.pending| == w.gate.next + snapshots
    && (forall i :: 0 <= i < |w.gate.pending| ==> w.gate.pending[i].generation == w.served - snapshots + 1 + i)
    && (w.live.Some? ==> 1 <= w.live.value <= w.served)
    && (w.gate.accepted == Some(w.gate.current) <==> w.live == Some(w.gate.current) && snapshots == 0)
  }

  lemma NextTrailing(w: World, s: Step, snapshots: nat)
    requires Trailing(w, snapshots) && Possible(w, s) && !Disturbed(w, s)
    ensures Trailing(Next(w, s), snapshots + if s == SnapshotRequired then 1 else 0)
  {}

  lemma {:induction false} AlwaysTrailing(steps: seq<Step>, n: nat)
    requires n <= |steps| && Calm(START, steps, n)
    ensures Trailing(After(START, steps, n), Snapshots(steps, n))
  {
    if n > 0 {
      AlwaysTrailing(steps, n - 1);
      NextTrailing(After(START, steps, n - 1), steps[n - 1], Snapshots(steps, n - 1));
    }
  }

  /** The message is applied to the page's state when it arrives. */
  predicate Applied(w: World, m: Message) { Dispatched(w.gate, m).1 }

  /** No stale data, and exactly when fresh data is lost: however sends and replies interleave, data is applied if and
      only if it belongs to the most recently sent subscription and no subscription on this socket was ever answered
      with `snapshot_required`. */
  lemma OnlyTheLatestIsApplied(steps: seq<Step>, n: nat)
    requires n < |steps| && Calm(START, steps, n + 1) && steps[n] == Delivered
    ensures var w := After(START, steps, n);
      Applied(w, Data) <==> w.live == Some(w.gate.current) && Snapshots(steps, n) == 0
  {
    AlwaysTrailing(steps, n);
  }

  /** A refusal is shown exactly when it answers the most recently sent subscription, under the same condition. */
  lemma OnlyTheLatestRefusalIsShown(steps: seq<Step>, n: nat)
    requires n < |steps| && Calm(START, steps, n + 1) && steps[n] == Refused
    ensures var w := After(START, steps, n);
      Applied(w, Failure) <==> w.served + 1 == w.gate.current && Snapshots(steps, n) == 0
  {
    AlwaysTrailing(steps, n);
  }

  /** After a snapshot reply the page gets no data at all, however often it subscribes again on the socket. */
  lemma {:induction false} NothingAfterSnapshot(steps: seq<Step>, k: nat, n: nat)
    requires k < n <= |steps| && Calm(START, steps, n) && steps[k] == SnapshotRequired
    ensures !Applied(After(START, steps, n), Data)
  {
    AlwaysTrailing(steps, n);
    SnapshotCounts(steps, k, n);
  }

  lemma {:induction false} SnapshotCounts(steps: seq<Step>, k: nat, n: nat)
    requires k < n <= |steps| && steps[k] == SnapshotRequired
    ensures Snapshots(steps, n) > 0
    decreases n
  {
    if k < n - 1 { SnapshotCounts(steps, k, n - 1); }
  }

  // ---------------------------------------------------------------- exactly when

  /** Data of an older subscription is applied. */
  predicate Stale(w: World, s: Step) { s == Delivered && Applied(w, Data) && w.live != Some(w.gate.current) }

  /** The client's queue is one short of the unanswered subscriptions, and ends with the latest. */
  ghost predicate Lagging(w: World) {
    && w.gate.next == w.gate.current && w.gate.pending != [] && w.served + 1 + |w.gate.pending| == w.gate.next
    && w.gate.pending[|w.gate.pending| - 1].generation == w.gate.current
    && (forall i :: 0 <= i < |w.gate.pending| - 1 ==> w.gate.pending[i].generation < w.gate.current)
  }

  function Answers(n: nat): (r: seq<Step>)
    ensures |r| == n + 1
  {
    if n == 0 then [Delivered] else [Answered] + Answers(n - 1)
  }

  lemma {:induction false} Shift(w: World, s: Step, rest: seq<Step>, n: nat)
    requires n <= |rest|
    ensures After(w, [s] + rest, n + 1) == After(Next(w, s), rest, n)
  {
    if n == 0 {
      assert After(w, [s] + rest, 0) == w;
    } else {
      Shift(w, s, rest, n - 1);
    }
  }

  lemma {:induction false} ConsCalm(w: World, s: Step, rest: seq<Step>, n: nat)
    requires n <= |rest| && Possible(w, s) && !Disturbed(w, s) && Calm(Next(w, s), rest, n)
    ensures Calm(w, [s] + rest, n + 1)
  {
    var all := [s] + rest;
    if n == 0 {
      assert After(w, all, 0) == w && all[0] == s;
    } else {
      ConsCalm(w, s, rest, n - 1);
      Shift(w, s, rest, n - 1);
      assert all[n] == rest[n - 1];
    }
  }

  /** Once the queue lags, the server's next answers make the client take an older subscription for its own. */
  lemma {:induction false} LagTurnsStale(w: World, n: nat)
    requires Lagging(w) && n == |w.gate.pending|
    ensures Calm(w, Answers(n), n + 1) && Stale(After(w, Answers(n), n), Answers(n)[n])
    decreases n
  {
    var w' := Next(w, Answered);
    if n == 1 {
      LastAnswer(w);
    } else {
      assert Lagging(w');
      LagTurnsStale(w', n - 1);
      ConsCalm(w, Answered, Answers(n - 1), n);
      Shift(w, Answered, Answers(n - 1), n - 1);
    }
  }

  lemma LastAnswer(w: World)
    requires Lagging(w) && |w.gate.pending| == 1
    ensures Calm(w, Answers(1), 2) && Stale(After(w, Answers(1), 1), Answers(1)[1])
  {
    var w' := Next(w, Answered);
    assert Answers(0) == [Delivered] && After(w', Answers(0), 0) == w';
    assert Calm(w', Answers(0), 0) && Calm(w', Answers(0), 1);
    ConsCalm(w, Answered, Answers(0), 1);
    Shift(w, Answered, Answers(0), 0);
  }

  /** A late error while subscriptions are unanswered is always dangerous: from any such point a run without any
      further late error - one more subscription, then the server's answers - shows stale data. */
  lemma LateErrorBreaksTheGate(w: World)
    requires Trailing(w, 0) && Possible(w, Late) && w.gate.pending != []
    ensures var w' := Next(w, Late); var n := |w.gate.pending|; var steps := [Subscribe(Normal)] + Answers(n);
      Calm(w', steps, n + 2) && Stale(After(w', steps, n + 1), steps[n + 1])
  {
    var w', n := Next(w, Late), |w.gate.pending|;
    var w2 := Next(w', Subscribe(Normal));
    assert Lagging(w2);
    LagTurnsStale(w2, n);
    ConsCalm(w', Subscribe(Normal), Answers(n), n + 1);
    Shift(w', Subscribe(Normal), Answers(n), n);
  }
}
