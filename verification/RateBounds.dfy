/** The bounds the limiters guarantee over the whole history of grants, although they forget most of it. */
module RateBounds {
  import opened Ordering
  import opened RateLimits

  // ---------------------------------------------------------------- bounded histories

  /** Grants that are `limit` or more apart in number are a window or more apart in time. */
  ghost predicate Spaced(h: seq<real>, limit: nat, window: real) {
    forall i, j :: 0 <= i < j < |h| && j - i >= limit ==> h[j] - h[i] >= window
  }

  function InWindow(from: real, window: real): real -> bool { t => from <= t < from + window }

  /** How many grants fall into [from, from + window). */
  function GrantsIn(h: seq<real>, from: real, window: real): nat { |Filter(h, InWindow(from, window))| }

  /** How many of an ordered list, from the first, come before `t`. */
  function Below(h: seq<real>, t: real): (k: nat)
    ensures k <= |h| && (forall i :: 0 <= i < k ==> h[i] < t) && (k < |h| ==> h[k] >= t)
  {
    if h != [] && h[0] < t then 1 + Below(h[1..], t) else 0
  }

  lemma WindowCount(h: seq<real>, from: real, window: real)
    requires NonDecreasing(h) && window >= 0.0
    ensures Below(h, from) <= Below(h, from + window)
    ensures GrantsIn(h, from, window) == Below(h, from + window) - Below(h, from)
  {
    var a, b, p := Below(h, from), Below(h, from + window), InWindow(from, window);
    assert a <= b;
    FilterSplit(h, a, b, p);
  }

  lemma StretchBound(h: seq<real>, limit: nat, window: real, a: nat, b: nat)
    requires Spaced(h, limit, window) && limit > 0 && a <= b <= |h| && (a < b ==> h[b - 1] - h[a] < window)
    ensures b - a <= limit
  {}

  lemma SpacedIsBounded(h: seq<real>, limit: nat, window: real, from: real)
    requires NonDecreasing(h) && window > 0.0 && limit > 0 && Spaced(h, limit, window)
    ensures GrantsIn(h, from, window) <= limit
  {
    WindowCount(h, from, window);
    StretchBound(h, limit, window, Below(h, from), Below(h, from + window));
  }

  lemma BoundedIsSpaced(h: seq<real>, limit: nat, window: real, i: nat, j: nat)
    requires NonDecreasing(h) && window > 0.0 && limit > 0 && i < j < |h| && j - i >= limit
    requires GrantsIn(h, h[i], window) <= limit
    ensures h[j] - h[i] >= window
  {
    WindowCount(h, h[i], window);
  }

  /** Spacing is the same thing as a bound on every window. */
  lemma SpacedIffBounded(h: seq<real>, limit: nat, window: real)
    requires NonDecreasing(h) && window > 0.0 && limit > 0
    ensures Spaced(h, limit, window) <==> forall from: real :: GrantsIn(h, from, window) <= limit
  {
    if Spaced(h, limit, window) {
      forall from: real ensures GrantsIn(h, from, window) <= limit { SpacedIsBounded(h, limit, window, from); }
    }
    if forall from: real :: GrantsIn(h, from, window) <= limit {
      forall i, j | 0 <= i < j < |h| && j - i >= limit ensures h[j] - h[i] >= window {
        BoundedIsSpaced(h, limit, window, i, j);
      }
    }
  }

  // ---------------------------------------------------------------- forgetting is invisible

  /** `calls` is what is left of the history `h`: its tail, without only what no window after `clock` can see. */
  ghost predicate TailOf(calls: seq<real>, h: seq<real>, clock: real, window: real) {
    && |calls| <= |h| && calls == h[|h| - |calls|..]
    && (forall i :: 0 <= i < |h| - |calls| ==> clock - h[i] >= window)
  }

  ghost predicate Past(h: seq<real>, clock: real) { NonDecreasing(h) && forall i :: 0 <= i < |h| ==> h[i] <= clock }

  lemma {:induction false} DropSuffix(h: seq<real>, k: nat, now: real, window: real)
    requires k <= |h| && forall i :: 0 <= i < k ==> now - h[i] >= window
    ensures Drop(h, now, window) == k + Drop(h[k..], now, window)
  {
    var a, b := Drop(h, now, window), k + Drop(h[k..], now, window);
    assert forall i :: k <= i < b ==> h[i] == h[k..][i - k] && now - h[i] >= window;
    assert b < |h| ==> h[b] == h[k..][b - k];
  }

  lemma RecentOfTail(calls: seq<real>, h: seq<real>, clock: real, now: real, window: real)
    requires TailOf(calls, h, clock, window) && clock <= now
    ensures Recent(calls, now, window) == Recent(h, now, window)
    ensures TailOf(Recent(calls, now, window), h, now, window)
  {
    var k := |h| - |calls|;
    DropSuffix(h, k, now, window);
  }

  // ---------------------------------------------------------------- one window

  /** The room a window has left at `now`, judged by the whole history. */
  function RoomAt(h: seq<real>, limit: nat, now: real, window: real): Room {
    RoomIn(Recent(h, now, window), limit, now, window)
  }

  lemma SpacedGrant(h: seq<real>, limit: nat, now: real, window: real)
    requires Past(h, now) && Spaced(h, limit, window) && RoomAt(h, limit, now, window) == Free
    ensures Past(h + [now], now) && Spaced(h + [now], limit, window)
  {
    var h' := h + [now];
    forall i, j | 0 <= i < j < |h'| && j - i >= limit ensures h'[j] - h'[i] >= window {
      if j == |h| { assert i < Drop(h, now, window); }
    }
  }

  lemma AtMostFull(h: seq<real>, limit: nat, now: real, window: real)
    requires Past(h, now) && Spaced(h, limit, window) && limit > 0
    ensures |Recent(h, now, window)| <= limit
  {
    StretchBound(h, limit, window, Drop(h, now, window), |h|);
  }

  /** A window has room from the moment its wait is over, and not before. */
  lemma RoomLater(h: seq<real>, limit: nat, now: real, t: real, window: real)
    requires Past(h, now) && Spaced(h, limit, window) && limit > 0 && now <= t
    ensures match RoomAt(h, limit, now, window)
      case Free => RoomAt(h, limit, t, window) == Free
      case Full(u) =>
        && u > 0.0 && RoomAt(h, limit, t, window) != Empty
        && (RoomAt(h, limit, t, window) == Free <==> t >= now + u)
      case Empty => false
  {
    AtMostFull(h, limit, now, window);
    var d, e := Drop(h, now, window), Drop(h, t, window);
    assert d <= e;
    assert d < |h| ==> Recent(h, now, window)[0] == h[d];
  }

  // ---------------------------------------------------------------- REST groups over whole runs

  datatype GroupOp = Acquire(at: real) | Defer(at: real, seconds: real)
  datatype GroupState = GroupState(calls: seq<real>, blocked: Option<real>, grants: seq<real>)

  function GroupStep(limit: nat, window: real, s: GroupState, op: GroupOp): GroupState {
    match op
    case Acquire(at) =>
      var r := TryGroup(limit, window, s.calls, s.blocked, at);
      GroupState(r.0, s.blocked, if r.1 == Granted then s.grants + [at] else s.grants)
    case Defer(at, seconds) => s.(blocked := Deferred(s.blocked, at + seconds))
  }

  /** A group after the first `n` calls of a run. */
  function GroupAfter(limit: nat, window: real, ops: seq<GroupOp>, n: nat): GroupState
    requires n <= |ops|
  {
    if n == 0 then GroupState([], None, [])
    else GroupStep(limit, window, GroupAfter(limit, window, ops, n - 1), ops[n - 1])
  }

  ghost predicate GroupTimed(ops: seq<GroupOp>) { forall i, j :: 0 <= i < j < |ops| ==> ops[i].at <= ops[j].at }

  ghost predicate GroupGood(limit: nat, window: real, s: GroupState, clock: real) {
    Past(s.grants, clock) && Spaced(s.grants, limit, window) && TailOf(s.calls, s.grants, clock, window)
  }

  lemma TailLater(calls: seq<real>, h: seq<real>, clock: real, now: real, window: real)
    requires TailOf(calls, h, clock, window) && clock <= now
    ensures TailOf(calls, h, now, window)
  {}

  lemma PastLater(h: seq<real>, clock: real, now: real)
    requires Past(h, clock) && clock <= now
    ensures Past(h, now)
  {}

  lemma TryOnHistory(limit: nat, window: real, s: GroupState, clock: real, at: real)
    requires GroupGood(limit, window, s, clock) && clock <= at
    ensures TryGroup(limit, window, s.calls, s.blocked, at).1 == TryGroup(limit, window, s.grants, s.blocked, at).1
  {
    RecentOfTail(s.calls, s.grants, clock, at, window);
  }

  lemma TailGrows(calls: seq<real>, h: seq<real>, clock: real, window: real)
    requires TailOf(calls, h, clock, window)
    ensures TailOf(calls + [clock], h + [clock], clock, window)
  {
    var h' := h + [clock];
    assert h'[|h'| - |calls| - 1..] == h[|h| - |calls|..] + [clock];
  }

  lemma GroupPass(limit: nat, window: real, s: GroupState, at: real, c: seq<real>)
    requires Past(s.grants, at) && Spaced(s.grants, limit, window) && TailOf(c, s.grants, at, window)
    requires c == Recent(s.calls, at, window) == Recent(s.grants, at, window)
    requires !(s.blocked.Some? && s.blocked.value > at)
    ensures GroupGood(limit, window, GroupStep(limit, window, s, Acquire(at)), at)
  {
    if |c| < limit {
      SpacedGrant(s.grants, limit, at, window);
      TailGrows(c, s.grants, at, window);
    }
  }

  lemma GroupStepGood(limit: nat, window: real, s: GroupState, clock: real, op: GroupOp)
    requires GroupGood(limit, window, s, clock) && clock <= op.at
    ensures GroupGood(limit, window, GroupStep(limit, window, s, op), op.at)
  {
    PastLater(s.grants, clock, op.at);
    TailLater(s.calls, s.grants, clock, op.at, window);
    if op.Acquire? && !(s.blocked.Some? && s.blocked.value > op.at) {
      RecentOfTail(s.calls, s.grants, clock, op.at, window);
      GroupPass(limit, window, s, op.at, Recent(s.calls, op.at, window));
    }
  }

  lemma {:induction false} GroupReachable(limit: nat, window: real, ops: seq<GroupOp>, n: nat, clock: real)
    requires n <= |ops| && GroupTimed(ops) && (n > 0 ==> ops[n - 1].at <= clock)
    ensures GroupGood(limit, window, GroupAfter(limit, window, ops, n), clock)
  {
    if n > 0 {
      GroupReachable(limit, window, ops, n - 1, ops[n - 1].at);
      var s := GroupAfter(limit, window, ops, n - 1);
      GroupStepGood(limit, window, s, ops[n - 1].at, ops[n - 1]);
    }
  }

  /** Every half-open window of the group's length holds at most `limit` grants, over any run of calls,
      responses and penalties, although only the calls of the last window are remembered. */
  lemma GroupNeverExceeds(limit: nat, window: real, ops: seq<GroupOp>, from: real)
    requires GroupTimed(ops) && window > 0.0 && limit > 0
    ensures GrantsIn(GroupAfter(limit, window, ops, |ops|).grants, from, window) <= limit
  {
    if ops == [] {
      GroupReachable(limit, window, ops, 0, 0.0);
    } else {
      GroupReachable(limit, window, ops, |ops|, ops[|ops| - 1].at);
    }
    SpacedIffBounded(GroupAfter(limit, window, ops, |ops|).grants, limit, window);
  }

  /** What the limiter forgets never matters: every pass decides as it would on the full history. */
  lemma ForgettingIsInvisible(limit: nat, window: real, ops: seq<GroupOp>, n: nat)
    requires n < |ops| && GroupTimed(ops) && ops[n].Acquire?
    ensures var s := GroupAfter(limit, window, ops, n);
      TryGroup(limit, window, s.calls, s.blocked, ops[n].at).1
      == TryGroup(limit, window, s.grants, s.blocked, ops[n].at).1
  {
    GroupReachable(limit, window, ops, n, ops[n].at);
    TryOnHistory(limit, window, GroupAfter(limit, window, ops, n), ops[n].at, ops[n].at);
  }

  lemma {:induction false} BlockedStays(limit: nat, window: real, ops: seq<GroupOp>, i: nat, n: nat)
    requires i < n <= |ops| && ops[i].Defer?
    ensures var b := GroupAfter(limit, window, ops, n).blocked; b.Some? && b.value >= ops[i].at + ops[i].seconds
    decreases n
  {
    if i + 1 < n { BlockedStays(limit, window, ops, i, n - 1); }
  }

  /** A penalty is served in full: no later call is granted before it is over. */
  lemma PenaltyServed(limit: nat, window: real, ops: seq<GroupOp>, i: nat, n: nat)
    requires i < n < |ops| && ops[i].Defer? && ops[n].Acquire?
    requires var s := GroupAfter(limit, window, ops, n);
      TryGroup(limit, window, s.calls, s.blocked, ops[n].at).1 == Granted
    ensures ops[n].at >= ops[i].at + ops[i].seconds
  {
    BlockedStays(limit, window, ops, i, n);
  }

  lemma WaitOnHistory(limit: nat, window: real, h: seq<real>, blocked: Option<real>, now: real, t: real)
    requires Past(h, now) && Spaced(h, limit, window) && limit > 0 && now <= t
    requires TryGroup(limit, window, h, blocked, now).1.Wait?
    ensures var w := TryGroup(limit, window, h, blocked, now).1.seconds;
      var again := TryGroup(limit, window, h, blocked, t).1;
      && w > 0.0
      && (t < now + w ==> again != Granted)
      && (t >= now + w && blocked.Some? ==> blocked.value <= t)
      && (t >= now + w && (blocked.Some? ==> blocked.value <= now) ==> again == Granted)
  {
    RoomLater(h, limit, now, t, window);
  }

  lemma WaitFromGood(limit: nat, window: real, s: GroupState, now: real, t: real)
    requires GroupGood(limit, window, s, now) && limit > 0 && now <= t
    requires TryGroup(limit, window, s.calls, s.blocked, now).1.Wait?
    ensures var first := TryGroup(limit, window, s.calls, s.blocked, now);
      var again := TryGroup(limit, window, first.0, s.blocked, t).1;
      && first.1.seconds > 0.0
      && (t < now + first.1.seconds ==> again != Granted)
      && (t >= now + first.1.seconds && s.blocked.Some? ==> s.blocked.value <= t)
      && (t >= now + first.1.seconds && (s.blocked.Some? ==> s.blocked.value <= now) ==> again == Granted)
  {
    TryOnHistory(limit, window, s, now, now);
    GroupStepGood(limit, window, s, now, Acquire(now));
    TryOnHistory(limit, window, GroupStep(limit, window, s, Acquire(now)), now, t);
    WaitOnHistory(limit, window, s.grants, s.blocked, now, t);
  }

  /** The wait never overshoots: no earlier try would be granted. When it is over the group is no longer
      blocked, and if it was not blocked before, the call is granted. */
  lemma GroupWaitIsExact(limit: nat, window: real, ops: seq<GroupOp>, now: real, t: real)
    requires GroupTimed(ops) && limit > 0 && (ops != [] ==> ops[|ops| - 1].at <= now) && now <= t
    requires var s := GroupAfter(limit, window, ops, |ops|); TryGroup(limit, window, s.calls, s.blocked, now).1.Wait?
    ensures var s := GroupAfter(limit, window, ops, |ops|);
      var first := TryGroup(limit, window, s.calls, s.blocked, now);
      var again := TryGroup(limit, window, first.0, s.blocked, t).1;
      && first.1.seconds > 0.0
      && (t < now + first.1.seconds ==> again != Granted)
      && (t >= now + first.1.seconds && s.blocked.Some? ==> s.blocked.value <= t)
      && (t >= now + first.1.seconds && (s.blocked.Some? ==> s.blocked.value <= now) ==> again == Granted)
  {
    GroupReachable(limit, window, ops, |ops|, now);
    WaitFromGood(limit, window, GroupAfter(limit, window, ops, |ops|), now, t);
  }

  // ---------------------------------------------------------------- WebSocket connections over whole runs

  datatype SocketState = SocketState(calls: seq<real>, grants: seq<real>)

  function SocketStep(perSecond: nat, perMinute: nat, s: SocketState, at: real): SocketState {
    var r := TrySocket(perSecond, perMinute, s.calls, at);
    SocketState(r.0, if r.1 == Granted then s.grants + [at] else s.grants)
  }

  function SocketAfter(perSecond: nat, perMinute: nat, tries: seq<real>, n: nat): SocketState
    requires n <= |tries|
  {
    if n == 0 then SocketState([], [])
    else SocketStep(perSecond, perMinute, SocketAfter(perSecond, perMinute, tries, n - 1), tries[n - 1])
  }

  ghost predicate SocketGood(perSecond: nat, perMinute: nat, s: SocketState, clock: real) {
    && Past(s.grants, clock) && TailOf(s.calls, s.grants, clock, MINUTE)
    && Spaced(s.grants, perSecond, SECOND) && Spaced(s.grants, perMinute, MINUTE)
  }

  lemma RecentOrdered(h: seq<real>, now: real, window: real)
    requires NonDecreasing(h)
    ensures NonDecreasing(Recent(h, now, window))
  {}

  lemma TailOfTail(h: seq<real>, k: nat, d: nat)
    requires k + d <= |h|
    ensures h[k..][d..] == h[k + d..]
  {}

  lemma RecentRecent(h: seq<real>, now: real, long: real, short: real)
    requires short <= long
    ensures Recent(Recent(h, now, long), now, short) == Recent(h, now, short)
  {
    var k := Drop(h, now, long);
    DropSuffix(h, k, now, short);
    TailOfTail(h, k, Drop(h[k..], now, short));
  }

  /** A pass judges both windows as on the full history. */
  lemma SocketRooms(calls: seq<real>, h: seq<real>, clock: real, at: real)
    requires Past(h, clock) && TailOf(calls, h, clock, MINUTE) && clock <= at
    ensures Recent(calls, at, MINUTE) == Recent(h, at, MINUTE) && TailOf(Recent(calls, at, MINUTE), h, at, MINUTE)
    ensures Filter(Recent(calls, at, MINUTE), Within(at, SECOND)) == Recent(h, at, SECOND)
  {
    RecentOfTail(calls, h, clock, at, MINUTE);
    RecentRecent(h, at, MINUTE, SECOND);
    RecentOrdered(h, at, MINUTE);
    WithinIsRecent(Recent(h, at, MINUTE), at, SECOND);
  }

  /** What a pass leaves and answers, by the full history. */
  lemma SocketOnHistory(perSecond: nat, perMinute: nat, calls: seq<real>, h: seq<real>, clock: real, at: real)
    requires Past(h, clock) && TailOf(calls, h, clock, MINUTE) && clock <= at
    ensures var r := TrySocket(perSecond, perMinute, calls, at);
      && r.1 == SocketOutcome(RoomAt(h, perSecond, at, SECOND), RoomAt(h, perMinute, at, MINUTE))
      && r.0 == if r.1 == Granted then Recent(h, at, MINUTE) + [at] else Recent(h, at, MINUTE)
  {
    SocketRooms(calls, h, clock, at);
  }

  lemma SocketPass(perSecond: nat, perMinute: nat, h: seq<real>, c: seq<real>, at: real)
    requires Past(h, at) && Spaced(h, perSecond, SECOND) && Spaced(h, perMinute, MINUTE) && TailOf(c, h, at, MINUTE)
    requires RoomAt(h, perSecond, at, SECOND) == Free && RoomAt(h, perMinute, at, MINUTE) == Free
    ensures SocketGood(perSecond, perMinute, SocketState(c + [at], h + [at]), at)
  {
    SpacedGrant(h, perSecond, at, SECOND);
    SpacedGrant(h, perMinute, at, MINUTE);
    TailGrows(c, h, at, MINUTE);
  }

  lemma SocketStepGood(perSecond: nat, perMinute: nat, s: SocketState, clock: real, at: real)
    requires SocketGood(perSecond, perMinute, s, clock) && clock <= at
    ensures SocketGood(perSecond, perMinute, SocketStep(perSecond, perMinute, s, at), at)
  {
    PastLater(s.grants, clock, at);
    RecentOfTail(s.calls, s.grants, clock, at, MINUTE);
    SocketOnHistory(perSecond, perMinute, s.calls, s.grants, clock, at);
    if TrySocket(perSecond, perMinute, s.calls, at).1 == Granted {
      SocketPass(perSecond, perMinute, s.grants, Recent(s.grants, at, MINUTE), at);
    }
  }

  lemma {:induction false} SocketReachable(perSecond: nat, perMinute: nat, tries: seq<real>, n: nat, clock: real)
    requires n <= |tries| && NonDecreasing(tries) && (n > 0 ==> tries[n - 1] <= clock)
    ensures SocketGood(perSecond, perMinute, SocketAfter(perSecond, perMinute, tries, n), clock)
  {
    if n > 0 {
      SocketReachable(perSecond, perMinute, tries, n - 1, tries[n - 1]);
      SocketNext(perSecond, perMinute, SocketAfter(perSecond, perMinute, tries, n - 1), tries[n - 1], clock);
    } else {
      assert SocketAfter(perSecond, perMinute, tries, 0) == SocketState([], []);
    }
  }

  lemma SocketNext(perSecond: nat, perMinute: nat, s: SocketState, at: real, clock: real)
    requires SocketGood(perSecond, perMinute, s, at) && at <= clock
    ensures SocketGood(perSecond, perMinute, SocketStep(perSecond, perMinute, s, at), clock)
  {
    SocketStepGood(perSecond, perMinute, s, at, at);
    var s' := SocketStep(perSecond, perMinute, s, at);
    PastLater(s'.grants, at, clock);
    TailLater(s'.calls, s'.grants, at, clock, MINUTE);
  }

  /** Every second and every minute of any run holds at most the allowed number of grants, both at once. */
  lemma SocketNeverExceeds(perSecond: nat, perMinute: nat, tries: seq<real>, from: real)
    requires NonDecreasing(tries) && perSecond > 0 && perMinute > 0
    ensures var h := SocketAfter(perSecond, perMinute, tries, |tries|).grants;
      GrantsIn(h, from, SECOND) <= perSecond && GrantsIn(h, from, MINUTE) <= perMinute
  {
    SocketReachable(perSecond, perMinute, tries, |tries|, if tries == [] then 0.0 else tries[|tries| - 1]);
    var h := SocketAfter(perSecond, perMinute, tries, |tries|).grants;
    SpacedIffBounded(h, perSecond, SECOND);
    SpacedIffBounded(h, perMinute, MINUTE);
  }

  lemma SocketWaitOnHistory(perSecond: nat, perMinute: nat, h: seq<real>, now: real, t: real)
    requires Past(h, now) && Spaced(h, perSecond, SECOND) && Spaced(h, perMinute, MINUTE) && perSecond > 0
    requires perMinute > 0 && now <= t
    ensures var first := SocketOutcome(RoomAt(h, perSecond, now, SECOND), RoomAt(h, perMinute, now, MINUTE));
      var again := SocketOutcome(RoomAt(h, perSecond, t, SECOND), RoomAt(h, perMinute, t, MINUTE));
      first != Broken && (first.Wait? ==> first.seconds > 0.0 && (again == Granted <==> t >= now + first.seconds))
  {
    RoomLater(h, perSecond, now, t, SECOND);
    RoomLater(h, perMinute, now, t, MINUTE);
  }

  /** With nobody else calling, the computed wait is exact: a try before it is over is refused, one from then
      on is granted. (The caller sleeps at least a millisecond.) */
  lemma SocketWaitIsExact(perSecond: nat, perMinute: nat, tries: seq<real>, now: real, t: real)
    requires NonDecreasing(tries) && perSecond > 0 && perMinute > 0 && (tries != [] ==> tries[|tries| - 1] <= now)
    requires now <= t
    ensures var s := SocketAfter(perSecond, perMinute, tries, |tries|);
      var first := TrySocket(perSecond, perMinute, s.calls, now);
      var again := TrySocket(perSecond, perMinute, first.0, t).1;
      && first.1 != Broken
      && (first.1.Wait? ==> first.1.seconds > 0.0 && (again == Granted <==> t >= now + first.1.seconds))
  {
    var s := SocketAfter(perSecond, perMinute, tries, |tries|);
    SocketReachable(perSecond, perMinute, tries, |tries|, now);
    SocketOnHistory(perSecond, perMinute, s.calls, s.grants, now, now);
    SocketWaitOnHistory(perSecond, perMinute, s.grants, now, t);
    var first := TrySocket(perSecond, perMinute, s.calls, now);
    if first.1.Wait? {
      RecentOfTail(s.calls, s.grants, now, now, MINUTE);
      SocketOnHistory(perSecond, perMinute, first.0, s.grants, now, t);
    }
  }

  // ---------------------------------------------------------------- when a call is granted

  /** How many grants are less than a window old at `now`. */
  function Lately(h: seq<real>, now: real, window: real): nat { |Filter(h, (t: real) => now - t < window)| }

  lemma LatelyIsRecent(h: seq<real>, now: real, window: real)
    requires NonDecreasing(h)
    ensures Lately(h, now, window) == |Recent(h, now, window)|
  {
    WithinIsRecent(h, now, window);
    FilterSame(h, Within(now, window), (t: real) => now - t < window);
  }

  lemma LongerBlock(b: Option<real>, until: real, t: real)
    requires t >= 0.0
    ensures Deferred(b, until).Some?
    ensures Deferred(b, until).value > t <==> until > t || (b.Some? && b.value > t)
  {}

  predicate BlockedAt(s: GroupState, t: real) { s.blocked.Some? && s.blocked.value > t }

  lemma BlockNext(limit: nat, window: real, s: GroupState, op: GroupOp, t: real)
    requires t >= 0.0
    ensures BlockedAt(GroupStep(limit, window, s, op), t)
       <==> BlockedAt(s, t) || (op.Defer? && op.at + op.seconds > t)
  {
    if op.Defer? { LongerBlock(s.blocked, op.at + op.seconds, t); }
  }

  /** Some penalty among the first `n` calls lasts beyond `t`. */
  ghost predicate Penalised(ops: seq<GroupOp>, n: nat, t: real)
    requires n <= |ops|
  {
    exists i :: 0 <= i < n && ops[i].Defer? && ops[i].at + ops[i].seconds > t
  }

  lemma PenalisedNext(ops: seq<GroupOp>, n: nat, t: real)
    requires n < |ops|
    ensures Penalised(ops, n + 1, t)
       <==> Penalised(ops, n, t) || (ops[n].Defer? && ops[n].at + ops[n].seconds > t)
  {}

  /** A group is blocked at `t` exactly when some penalty before lasts beyond `t`. */
  lemma {:induction false} BlockedIff(limit: nat, window: real, ops: seq<GroupOp>, n: nat, t: real)
    requires n <= |ops| && t >= 0.0
    ensures BlockedAt(GroupAfter(limit, window, ops, n), t) <==> Penalised(ops, n, t)
  {
    if n > 0 {
      BlockedIff(limit, window, ops, n - 1, t);
      PenalisedNext(ops, n - 1, t);
      BlockNext(limit, window, GroupAfter(limit, window, ops, n - 1), ops[n - 1], t);
    }
  }

  lemma TryGranted(limit: nat, window: real, calls: seq<real>, blocked: Option<real>, now: real)
    ensures TryGroup(limit, window, calls, blocked, now).1 == Granted
       <==> !(blocked.Some? && blocked.value > now) && |Recent(calls, now, window)| < limit
  {}

  lemma GrantedOnHistory(limit: nat, window: real, s: GroupState, now: real)
    requires GroupGood(limit, window, s, now)
    ensures TryGroup(limit, window, s.calls, s.blocked, now).1 == Granted
       <==> !BlockedAt(s, now) && Lately(s.grants, now, window) < limit
  {
    RecentOfTail(s.calls, s.grants, now, now, window);
    LatelyIsRecent(s.grants, now, window);
    TryGranted(limit, window, s.calls, s.blocked, now);
  }

  /** What a group answers to call `n`. */
  function GroupAnswer(limit: nat, window: real, ops: seq<GroupOp>, n: nat): Outcome
    requires n < |ops|
  {
    var s := GroupAfter(limit, window, ops, n);
    TryGroup(limit, window, s.calls, s.blocked, ops[n].at).1
  }

  /** A call is granted exactly when every penalty before it is over and fewer than `limit` grants are less than a
      window old. */
  lemma GroupGrantedIff(limit: nat, window: real, ops: seq<GroupOp>, n: nat)
    requires n < |ops| && GroupTimed(ops) && ops[n].Acquire? && ops[n].at >= 0.0
    ensures GroupAnswer(limit, window, ops, n) == Granted
       <==> Lately(GroupAfter(limit, window, ops, n).grants, ops[n].at, window) < limit
            && !Penalised(ops, n, ops[n].at)
  {
    GroupReachable(limit, window, ops, n, ops[n].at);
    BlockedIff(limit, window, ops, n, ops[n].at);
    GrantedOnHistory(limit, window, GroupAfter(limit, window, ops, n), ops[n].at);
  }

  lemma BothFree(s: Room, m: Room)
    ensures SocketOutcome(s, m) == Granted <==> s == Free && m == Free
  {}

  lemma FreeIff(h: seq<real>, limit: nat, now: real, window: real)
    requires NonDecreasing(h)
    ensures RoomAt(h, limit, now, window) == Free <==> Lately(h, now, window) < limit
  {
    LatelyIsRecent(h, now, window);
  }

  lemma SocketRoom(perSecond: nat, perMinute: nat, s: SocketState, now: real)
    requires SocketGood(perSecond, perMinute, s, now)
    ensures TrySocket(perSecond, perMinute, s.calls, now).1
         == SocketOutcome(RoomAt(s.grants, perSecond, now, SECOND), RoomAt(s.grants, perMinute, now, MINUTE))
  {
    SocketOnHistory(perSecond, perMinute, s.calls, s.grants, now, now);
  }

  /** What a connection answers to try `n`. */
  function SocketAnswer(perSecond: nat, perMinute: nat, tries: seq<real>, n: nat): Outcome
    requires n < |tries|
  {
    TrySocket(perSecond, perMinute, SocketAfter(perSecond, perMinute, tries, n).calls, tries[n]).1
  }

  /** A connection's call is granted exactly when both the last second and the last minute have room. */
  lemma SocketGrantedIff(perSecond: nat, perMinute: nat, tries: seq<real>, n: nat)
    requires n < |tries| && NonDecreasing(tries)
    ensures var h := SocketAfter(perSecond, perMinute, tries, n).grants;
      SocketAnswer(perSecond, perMinute, tries, n) == Granted
      <==> Lately(h, tries[n], 1.0) < perSecond && Lately(h, tries[n], 60.0) < perMinute
  {
    var s := SocketAfter(perSecond, perMinute, tries, n);
    SocketReachable(perSecond, perMinute, tries, n, tries[n]);
    SocketRoom(perSecond, perMinute, s, tries[n]);
    BothFree(RoomAt(s.grants, perSecond, tries[n], SECOND), RoomAt(s.grants, perMinute, tries[n], MINUTE));
    FreeIff(s.grants, perSecond, tries[n], 1.0);
    FreeIff(s.grants, perMinute, tries[n], 60.0);
  }
}
