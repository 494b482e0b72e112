/** The gateway's sliding-window limiters: `GroupRateLimiter` for REST groups and `WebSocketRateLimiter` with
    its one-second and one-minute windows. A call is one pass through the critical section of `acquire`;
    between passes the caller sleeps and anyone else may call. Time is in seconds. */
module RateLimits {
  import opened Ordering

  /** One pass: the call is granted, or has to wait, or the limit leaves nothing to wait for (index error). */
  datatype Outcome = Granted | Wait(seconds: real) | Broken

  // ---------------------------------------------------------------- windows

  predicate NonDecreasing(s: seq<real>) { forall i, j :: 0 <= i < j < |s| ==> s[i] <= s[j] }

  /** How many calls, from the first, have left the window that ends now. */
  function Drop(s: seq<real>, now: real, window: real): (k: nat)
    ensures k <= |s| && (forall i :: 0 <= i < k ==> now - s[i] >= window)
    ensures k < |s| ==> now - s[k] < window
  {
    if s != [] && now - s[0] >= window then 1 + Drop(s[1..], now, window) else 0
  }

  function Recent(s: seq<real>, now: real, window: real): seq<real> { s[Drop(s, now, window)..] }

  /** Calls are taken from the front of the queue as long as they have left the window. */
  method Prune(calls: seq<real>, now: real, window: real) returns (left: seq<real>)
    ensures left == Recent(calls, now, window)
  {
    left := calls;
    while left != [] && now - left[0] >= window
      invariant |left| <= |calls| && left == calls[|calls| - |left|..]
      invariant Drop(calls, now, window) >= |calls| - |left|
      decreases |left|
    {
      left := left[1..];
    }
  }

  function Within(now: real, window: real): real -> bool { t => now - t < window }

  lemma NoneKept(s: seq<real>, p: real -> bool)
    requires forall i :: 0 <= i < |s| ==> !p(s[i])
    ensures Filter(s, p) == []
  {
    forall x | x in s ensures !p(x) { var i :| 0 <= i < |s| && s[i] == x; }
    FilterNone(s, p);
  }

  lemma AllKept(s: seq<real>, p: real -> bool)
    requires forall i :: 0 <= i < |s| ==> p(s[i])
    ensures Filter(s, p) == s
  {
    forall x | x in s ensures p(x) { var i :| 0 <= i < |s| && s[i] == x; }
    FilterAll(s, p);
  }

  /** A filter keeps a stretch of a list when it accepts exactly that stretch. */
  lemma FilterSplit(s: seq<real>, a: nat, b: nat, p: real -> bool)
    requires a <= b <= |s|
    requires (forall i :: 0 <= i < a ==> !p(s[i])) && (forall i :: a <= i < b ==> p(s[i]))
    requires (forall i :: b <= i < |s| ==> !p(s[i]))
    ensures Filter(s, p) == s[a..b]
  {
    NoneKept(s[..a], p);
    AllKept(s[a..b], p);
    NoneKept(s[b..], p);
    FilterThree(s[..a], s[a..b], s[b..], p);
    Cut(s, a, b);
  }

  lemma Cut(s: seq<real>, a: nat, b: nat)
    requires a <= b <= |s|
    ensures s == s[..a] + s[a..b] + s[b..]
  {}

  lemma FilterThree(x: seq<real>, y: seq<real>, z: seq<real>, p: real -> bool)
    requires Filter(x, p) == [] && Filter(y, p) == y && Filter(z, p) == []
    ensures Filter(x + y + z, p) == y
  {
    FilterConcat(x + y, z, p);
    FilterConcat(x, y, p);
  }

  /** Members of a list within the window, as a comprehension keeps them, are its tail. */
  lemma WithinIsRecent(s: seq<real>, now: real, window: real)
    requires NonDecreasing(s)
    ensures Filter(s, Within(now, window)) == Recent(s, now, window)
  {
    var k, p := Drop(s, now, window), Within(now, window);
    assert forall i :: k <= i < |s| ==> now - s[i] < window;
    FilterSplit(s, k, |s|, p);
    assert s[k..|s|] == s[k..];
  }

  // ---------------------------------------------------------------- REST groups

  /** What a pass makes of the calls still in the window. */
  function Judged(recent: seq<real>, limit: nat, window: real, now: real): (seq<real>, Outcome) {
    if |recent| < limit then (recent + [now], Granted)
    else if recent == [] then (recent, Broken)
    else (recent, Wait(window - (now - recent[0])))
  }

  function TryGroup(limit: nat, window: real, calls: seq<real>, blocked: Option<real>, now: real)
    : (seq<real>, Outcome)
  {
    if blocked.Some? && blocked.value > now then (calls, Wait(blocked.value - now))
    else Judged(Recent(calls, now, window), limit, window, now)
  }

  method Judge(recent: seq<real>, limit: nat, window: real, now: real) returns (left: seq<real>, outcome: Outcome)
    ensures (left, outcome) == Judged(recent, limit, window, now)
  {
    left := recent;
    if |recent| < limit {
      left := left + [now];
      return left, Granted;
    }
    if recent == [] { return left, Broken; }
    outcome := Wait(window - (now - recent[0]));
  }

  function Deferred(blocked: Option<real>, until: real): Option<real> {
    var was := if blocked.Some? then blocked.value else 0.0;
    Some(if was < until then until else was)
  }

  class GroupRateLimiter {
    const limits: map<string, (nat, real)>
    var calls: map<string, seq<real>>
    var blockedUntil: map<string, real>

    constructor (limits: map<string, (nat, real)>)
      ensures this.limits == limits && forall g :: Calls(g) == [] && Blocked(g) == None
    {
      this.limits := limits;
      calls, blockedUntil := map[], map[];
    }

    function Calls(g: string): seq<real> reads this { if g in calls then calls[g] else [] }
    function Blocked(g: string): Option<real> reads this { if g in blockedUntil then Some(blockedUntil[g]) else None }

    /** One pass of `acquire`; an unknown group is an error that changes nothing. */
    method TryAcquire(group: string, now: real) returns (r: Option<Outcome>)
      modifies this
      ensures r.Some? <==> group in limits
      ensures group !in limits ==> calls == old(calls)
      ensures group in limits ==>
        (Calls(group), r.value)
        == TryGroup(limits[group].0, limits[group].1, old(Calls(group)), old(Blocked(group)), now)
      ensures blockedUntil == old(blockedUntil) && forall g :: g != group ==> Calls(g) == old(Calls(g))
    {
      if group !in limits { return None; }
      var (limit, window) := limits[group];
      if group in blockedUntil && blockedUntil[group] > now { return Some(Wait(blockedUntil[group] - now)); }
      var mine := Prune(Calls(group), now, window);
      var left, outcome := Judge(mine, limit, window, now);
      calls := calls[group := left];
      r := Some(outcome);
    }

    /** `observe`: an exhausted second quota of a known group blocks it for a second. */
    method Observe(remaining: Option<(string, nat)>, now: real)
      modifies this
      ensures calls == old(calls)
      ensures forall g :: Blocked(g) == if remaining == Some((g, 0)) && g in limits
                                        then Deferred(old(Blocked(g)), now + 1.0) else old(Blocked(g))
    {
      if remaining == None { return; }
      var (group, quota) := remaining.value;
      if quota == 0 && group in limits {
        var was := if group in blockedUntil then blockedUntil[group] else 0.0;
        blockedUntil := blockedUntil[group := if was < now + 1.0 then now + 1.0 else was];
      }
    }

    method Defer(group: string, seconds: real, now: real)
      modifies this
      ensures calls == old(calls)
      ensures forall g :: Blocked(g) == if g == group then Deferred(old(Blocked(g)), now + seconds) else old(Blocked(g))
    {
      var was := if group in blockedUntil then blockedUntil[group] else 0.0;
      blockedUntil := blockedUntil[group := if was < now + seconds then now + seconds else was];
    }
  }

  // ---------------------------------------------------------------- WebSocket connections

  const SECOND := 1.0
  const MINUTE := 60.0

  function Max(a: real, b: real): real { if a < b then b else a }

  /** The wait of one window: how long until its first call leaves it; none while there is room. */
  datatype Room = Free | Full(until: real) | Empty

  function RoomIn(recent: seq<real>, limit: nat, now: real, window: real): Room {
    if |recent| < limit then Free else if recent == [] then Empty else Full(window - (now - recent[0]))
  }

  /** The outcome of a pass from the room in its two windows. */
  function SocketOutcome(s: Room, m: Room): Outcome {
    if s == Empty || m == Empty then Broken
    else if s == Free && m == Free then Granted
    else if s == Free then Wait(m.until)
    else if m == Free then Wait(s.until)
    else Wait(Max(s.until, m.until))
  }

  /** What a pass makes of the calls of the last minute and of the last second. */
  function SocketJudged(perSecond: nat, perMinute: nat, minute: seq<real>, second: seq<real>, now: real): Outcome {
    SocketOutcome(RoomIn(second, perSecond, now, SECOND), RoomIn(minute, perMinute, now, MINUTE))
  }

  function TrySocket(perSecond: nat, perMinute: nat, calls: seq<real>, now: real): (seq<real>, Outcome) {
    var c := Recent(calls, now, MINUTE);
    var r := SocketJudged(perSecond, perMinute, c, Filter(c, Within(now, SECOND)), now);
    (if r == Granted then c + [now] else c, r)
  }

  /** The waits of both windows, and the larger of them. */
  method JudgeSocket(perSecond: nat, perMinute: nat, minute: seq<real>, second: seq<real>, now: real)
    returns (r: Outcome)
    ensures r == SocketJudged(perSecond, perMinute, minute, second, now)
  {
    var waits: seq<real> := [];
    if |second| >= perSecond {
      if second == [] { return Broken; }
      waits := waits + [SECOND - (now - second[0])];
    }
    if |minute| >= perMinute {
      if minute == [] { return Broken; }
      waits := waits + [MINUTE - (now - minute[0])];
    }
    if waits == [] { return Granted; }
    r := Wait(if |waits| == 1 then waits[0] else Max(waits[0], waits[1]));
  }

  class WebSocketRateLimiter {
    const perSecond: nat
    const perMinute: nat
    var calls: seq<real>

    constructor (perSecond: nat, perMinute: nat)
      ensures this.perSecond == perSecond && this.perMinute == perMinute && calls == []
    {
      this.perSecond, this.perMinute := perSecond, perMinute;
      calls := [];
    }

    /** One pass of `acquire`. */
    method TryAcquire(now: real) returns (r: Outcome)
      modifies this
      ensures (calls, r) == TrySocket(perSecond, perMinute, old(calls), now)
    {
      calls := Prune(calls, now, MINUTE);
      r := JudgeSocket(perSecond, perMinute, calls, Filter(calls, Within(now, SECOND)), now);
      if r == Granted { calls := calls + [now]; }
    }
  }
}
