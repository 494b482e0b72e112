/** The leased queue of backtest runs (`claim_next_run`, `complete_claimed_run`, `fail_claimed_run`):
    many workers, one table, a clock that only moves forward. Each call is one transaction; the clock
    readings it takes are parameters, since the database reads the clock again for every statement. */
module LeaseQueue {
  import opened Ordering

  const SECOND := 1_000_000
  const INTEGER_MAX := 2147483647

  datatype Status = Queued | Running | RetryWait | Succeeded | Failed | DeadLetter

  /** What a run was requested with: the idempotency key and the hash of the request under it, the strategy,
      dataset, engine, parameters and seed as one identity, and the hash of the replay's input. */
  datatype Request = Request(key: string, body: string, identity: string, inputHash: string, requestedAt: nat)

  datatype Run = Run(status: Status, request: Request, maxAttempts: nat,
                     attempts: nat, generation: nat, owner: Option<string>, expiresAt: Option<nat>,
                     nextRetryAt: Option<nat>, resultHash: Option<string>, deadLetterReason: Option<string>,
                     lastError: Option<(string, string)>, startedAt: Option<nat>, finishedAt: Option<nat>)

  datatype Outcome = Outcome(succeeded: bool, inputHash: string, resultHash: Option<string>)

  /** The trades, equity points, metrics and artifacts that one completion wrote for a run. */
  datatype Saved = Saved(run: nat, generation: int, owner: string, at: nat, outcome: Outcome)

  datatype Table = Table(runs: map<nat, Run>, saved: seq<Saved>)

  datatype Reply = Created(id: nat) | Replayed(id: nat) | Claimed(id: nat, generation: nat) | NoRun | Done | LeaseLost
    | Rejected

  predicate Terminal(r: Run) { r.status in {Succeeded, Failed, DeadLetter} }

  // ---------------------------------------------------------------- names

  /** What `str.strip` takes for space. */
  predicate Space(c: char) {
    || '\U{9}' <= c <= '\U{D}' || '\U{1C}' <= c <= '\U{20}' || '\U{2000}' <= c <= '\U{200A}'
    || c in {'\U{85}', '\U{A0}', '\U{1680}', '\U{2028}', '\U{2029}', '\U{202F}', '\U{205F}', '\U{3000}'}
  }

  function TrimLeft(s: string): string { if s != "" && Space(s[0]) then TrimLeft(s[1..]) else s }
  function TrimRight(s: string): string { if s != "" && Space(s[|s| - 1]) then TrimRight(s[..|s| - 1]) else s }

  /** `_non_blank` keeps the text without surrounding space, and refuses when nothing is left. */
  function Trim(s: string): string { TrimRight(TrimLeft(s)) }

  // ---------------------------------------------------------------- rows

  function NewRun(request: Request, max: nat): Run {
    Run(Queued, request, max, 0, 0, None, None, None, None, None, None, None, None)
  }

  predicate Expired(r: Run, t: nat) { r.status == Running && r.expiresAt.Some? && r.expiresAt.value <= t }

  /** A run whose last allowed attempt lost its lease is given up. */
  function Swept(r: Run, t: nat): Run {
    if Expired(r, t) && r.attempts >= r.maxAttempts
    then r.(status := DeadLetter, owner := None, expiresAt := None, nextRetryAt := None,
            deadLetterReason := Some("retry_attempts_exhausted"), finishedAt := Some(t))
    else r
  }

  predicate Claimable(r: Run, t: nat) {
    && r.attempts < r.maxAttempts
    && (r.status == Queued || (r.status == RetryWait && r.nextRetryAt.Some? && r.nextRetryAt.value <= t)
        || Expired(r, t))
  }

  function Leased(r: Run, owner: string, t: nat, lease: nat): Run {
    r.(status := Running, owner := Some(owner), expiresAt := Some(t + lease * SECOND), generation := r.generation + 1,
       attempts := r.attempts + 1, nextRetryAt := None, deadLetterReason := None,
       startedAt := if r.startedAt.Some? then r.startedAt else Some(t), finishedAt := None)
  }

  /** The caller still holds the lease it names. */
  predicate Holds(r: Run, owner: string, generation: int, t: nat) {
    && r.status == Running && r.owner == Some(owner) && r.generation == generation && r.expiresAt.Some?
    && r.expiresAt.value > t
  }

  function Completed(r: Run, o: Outcome, finished: nat): Run {
    r.(status := if o.succeeded then Succeeded else Failed,
       resultHash := o.resultHash, owner := None, expiresAt := None,
       finishedAt := Some(finished))
  }

  function Power(n: nat): nat { if n == 0 then 1 else 2 * Power(n - 1) }

  /** Seconds to wait before the next attempt. */
  function Backoff(attempts: nat): nat { if Power(attempts) < 300 then Power(attempts) else 300 }

  /** The power is cast to a 32-bit integer before it is capped, and the cast fails above 2^31 - 1. */
  predicate BackoffOverflows(r: Run) { r.attempts < r.maxAttempts && Power(r.attempts) > INTEGER_MAX }

  function Released(r: Run, code: string, message: string, t: nat): Run {
    if r.attempts >= r.maxAttempts
    then r.(status := DeadLetter, owner := None, expiresAt := None, nextRetryAt := None,
            lastError := Some((code, message)),
            deadLetterReason := Some(code), finishedAt := Some(t))
    else r.(status := RetryWait, owner := None, expiresAt := None,
            nextRetryAt := Some(t + Backoff(r.attempts) * SECOND),
            lastError := Some((code, message)), deadLetterReason := None, finishedAt := None)
  }

  // ---------------------------------------------------------------- the queue's order

  predicate Before(runs: map<nat, Run>, a: nat, b: nat)
    requires a in runs && b in runs
  {
    || runs[a].request.requestedAt < runs[b].request.requestedAt
    || (runs[a].request.requestedAt == runs[b].request.requestedAt && a <= b)
  }

  function EarliestRequest(runs: map<nat, Run>, ids: set<nat>): (t: int)
    requires ids != {} && ids <= runs.Keys
    ensures exists id :: id in ids && runs[id].request.requestedAt == t
    ensures forall id :: id in ids ==> t <= runs[id].request.requestedAt
  {
    assert (forall id :: id !in ids) ==> ids == {};
    var times: set<int> := set id | id in ids :: runs[id].request.requestedAt;
    assert forall id :: id in ids ==> runs[id].request.requestedAt in times;
    Least(times)
  }

  /** The first of some runs in the queue's order. */
  function First(runs: map<nat, Run>, ids: set<nat>): (a: nat)
    requires ids != {} && ids <= runs.Keys
    ensures a in ids && forall b :: b in ids ==> Before(runs, a, b)
  {
    var t := EarliestRequest(runs, ids);
    var earliest: set<int> := set id | id in ids && runs[id].request.requestedAt == t;
    assert earliest != {} by {
      var id :| id in ids && runs[id].request.requestedAt == t;
      assert id in earliest;
    }
    assert forall b :: b in ids && runs[b].request.requestedAt == t ==> b in earliest;
    Least(earliest)
  }

  function ClaimableIds(runs: map<nat, Run>, t: nat): set<nat> { set id | id in runs && Claimable(runs[id], t) }

  /** ORDER BY requested_at, id LIMIT 1 among the runs that may be claimed. */
  function Next(runs: map<nat, Run>, t: nat): (r: Option<nat>)
    ensures r == None ==> forall id :: id in runs ==> !Claimable(runs[id], t)
    ensures r.Some? ==> r.value in runs && Claimable(runs[r.value], t)
    ensures r.Some? ==> forall id :: id in runs && Claimable(runs[id], t) ==> Before(runs, r.value, id)
  {
    var ids := ClaimableIds(runs, t);
    assert forall id :: id in runs && Claimable(runs[id], t) ==> id in ids;
    if ids == {} then None else Some(First(runs, ids))
  }

  // ---------------------------------------------------------------- calls

  datatype Call =
    | Create(request: Request, max: int, ready: bool)
    | Claim(worker: string, lease: int, sweptAt: nat, selectedAt: nat, leasedAt: nat)
    | Complete(id: int, worker: string, generation: int, outcome: Outcome, at: nat, recheckedAt: nat, completedAt: nat)
    | Fail(id: int, worker: string, generation: int, code: string, message: string, at: nat)

  /** The clock readings of a call, in the order it takes them, and never before `now`. */
  predicate Timely(now: nat, c: Call) {
    match c
    case Create(_, _, _) => true
    case Claim(_, _, swept, selected, leased) => now <= swept <= selected <= leased
    case Complete(_, _, _, _, at, rechecked, _) => now <= at <= rechecked
    case Fail(_, _, _, _, _, at) => now <= at
  }

  function ClockAfter(now: nat, c: Call): nat {
    match c
    case Create(_, _, _) => now
    case Claim(_, _, _, _, leased) => leased
    case Complete(_, _, _, _, _, rechecked, _) => rechecked
    case Fail(_, _, _, _, _, at) => at
  }

  function FreshId(runs: map<nat, Run>): nat { |runs| + 1 }

  function WithKey(runs: map<nat, Run>, key: string): set<nat> { set id | id in runs && runs[id].request.key == key }

  /** Another run already has this input, or this strategy, dataset, engine, parameters and seed. */
  predicate InputTaken(runs: map<nat, Run>, request: Request) {
    exists id :: id in runs &&
      (runs[id].request.inputHash == request.inputHash || runs[id].request.identity == request.identity)
  }

  /** A repeated request under its key is answered with the run it made; a different one under that key, one whose
      strategy or dataset is not `ready`, and one whose input is taken are refused. */
  function Creating(s: Table, request: Request, max: int, ready: bool): (Table, Reply) {
    var key := Trim(request.key);
    var known := WithKey(s.runs, key);
    if key == "" || max < 1 then (s, Rejected)
    else if known != {} then
      var id := Least(known);
      (s, if s.runs[id].request.body == request.body then Replayed(id) else Rejected)
    else if !ready || InputTaken(s.runs, request) || max > INTEGER_MAX then (s, Rejected)
    else
      var id := FreshId(s.runs);
      (s.(runs := s.runs[id := NewRun(request.(key := key), max)]), Created(id))
  }

  function SweepAll(runs: map<nat, Run>, t: nat): map<nat, Run> { map id | id in runs :: Swept(runs[id], t) }

  function Claiming(s: Table, worker: string, lease: int, sweptAt: nat, selectedAt: nat, leasedAt: nat)
    : (Table, Reply)
  {
    if Trim(worker) == "" || lease < 1 then (s, Rejected) else
      var runs := SweepAll(s.runs, sweptAt);
      match Next(runs, selectedAt)
      case None => (s.(runs := runs), NoRun)
      case Some(id) =>
        var run := Leased(runs[id], Trim(worker), leasedAt, lease);
        (s.(runs := runs[id := run]), Claimed(id, run.generation))
  }

  function Completing(s: Table, c: Call): (Table, Reply)
    requires c.Complete?
  {
    if Trim(c.worker) == "" || c.id < 1 || c.generation < 1 then (s, Rejected)
    else if c.id !in s.runs || !Holds(s.runs[c.id], Trim(c.worker), c.generation, c.at) then (s, LeaseLost)
    else if s.runs[c.id].request.inputHash != c.outcome.inputHash then (s, Rejected)
    else if !Holds(s.runs[c.id], Trim(c.worker), c.generation, c.recheckedAt) then (s, LeaseLost)
    else if c.outcome.succeeded && c.outcome.resultHash == None then (s, Rejected)
    else (Table(s.runs[c.id := Completed(s.runs[c.id], c.outcome, c.completedAt)],
                s.saved + [Saved(c.id, c.generation, Trim(c.worker), c.recheckedAt, c.outcome)]), Done)
  }

  function Failing(s: Table, c: Call): (Table, Reply)
    requires c.Fail?
  {
    if Trim(c.worker) == "" || c.id < 1 || c.generation < 1 then (s, Rejected)
    else if Trim(c.code) == "" || Trim(c.message) == "" then (s, Rejected)
    else if c.id !in s.runs || !Holds(s.runs[c.id], Trim(c.worker), c.generation, c.at) then (s, LeaseLost)
    else if BackoffOverflows(s.runs[c.id]) then (s, Rejected)
    else (s.(runs := s.runs[c.id := Released(s.runs[c.id], Trim(c.code), Trim(c.message), c.at)]), Done)
  }

  /** One call as a step of the table. */
  function Step(s: Table, c: Call): (Table, Reply) {
    match c
    case Create(request, max, ready) => Creating(s, request, max, ready)
    case Claim(worker, lease, swept, selected, leased) => Claiming(s, worker, lease, swept, selected, leased)
    case Complete(_, _, _, _, _, _, _) => Completing(s, c)
    case Fail(_, _, _, _, _, _) => Failing(s, c)
  }

  // ---------------------------------------------------------------- the store

  class RunStore {
    var runs: map<nat, Run>
    var saved: seq<Saved>

    constructor ()
      ensures Contents() == Table(map[], [])
    {
      runs, saved := map[], [];
    }

    function Contents(): Table
      reads this
    {
      Table(runs, saved)
    }

    method CreateRun(request: Request, max: int, ready: bool) returns (reply: Reply)
      modifies this
      ensures (Contents(), reply) == Step(old(Contents()), Create(request, max, ready))
    {
      var key := Trim(request.key);
      if key == "" || max < 1 { return Rejected; }
      var known := WithKey(runs, key);
      if known != {} {
        var existing := Least(known);
        if runs[existing].request.body != request.body { return Rejected; }
        return Replayed(existing);
      }
      if !ready || InputTaken(runs, request) || max > INTEGER_MAX { return Rejected; }
      var id := FreshId(runs);
      runs := runs[id := NewRun(request.(key := key), max)];
      reply := Created(id);
    }

    method ClaimNextRun(worker: string, lease: int, sweptAt: nat, selectedAt: nat, leasedAt: nat) returns (reply: Reply)
      modifies this
      ensures (Contents(), reply) == Step(old(Contents()), Claim(worker, lease, sweptAt, selectedAt, leasedAt))
    {
      var owner := Trim(worker);
      if owner == "" || lease < 1 { return Rejected; }
      runs := SweepAll(runs, sweptAt);
      var next := Next(runs, selectedAt);
      if next == None { return NoRun; }
      var run := runs[next.value];
      var generation := run.generation + 1;
      run := run.(status := Running, owner := Some(owner), expiresAt := Some(leasedAt + lease * SECOND),
                  generation := generation, attempts := run.attempts + 1, nextRetryAt := None, deadLetterReason := None,
                  startedAt := if run.startedAt.Some? then run.startedAt else Some(leasedAt), finishedAt := None);
      runs := runs[next.value := run];
      reply := Claimed(next.value, generation);
    }

    method CompleteClaimedRun(id: int, worker: string, generation: int, outcome: Outcome, at: nat, recheckedAt: nat,
                              completedAt: nat) returns (reply: Reply)
      modifies this
      ensures (Contents(), reply) == Step(old(Contents()), Complete(id, worker, generation, outcome, at, recheckedAt,
                                                                    completedAt))
    {
      var owner := Trim(worker);
      if owner == "" || id < 1 || generation < 1 { return Rejected; }
      if id !in runs || !Holds(runs[id], owner, generation, at) { return LeaseLost; }
      if runs[id].request.inputHash != outcome.inputHash { return Rejected; }
      if !Holds(runs[id], owner, generation, recheckedAt) { return LeaseLost; }
      if outcome.succeeded && outcome.resultHash == None { return Rejected; }
      saved := saved + [Saved(id, generation, owner, recheckedAt, outcome)];
      runs := runs[id := runs[id].(status := if outcome.succeeded then Succeeded else Failed,
                                   resultHash := outcome.resultHash,
                                   owner := None, expiresAt := None, finishedAt := Some(completedAt))];
      reply := Done;
    }

    method FailClaimedRun(id: int, worker: string, generation: int, code: string, message: string, at: nat)
      returns (reply: Reply)
      modifies this
      ensures (Contents(), reply) == Step(old(Contents()), Fail(id, worker, generation, code, message, at))
    {
      var owner, errorCode, text := Trim(worker), Trim(code), Trim(message);
      if owner == "" || errorCode == "" || text == "" || id < 1 || generation < 1 { return Rejected; }
      if id !in runs || !Holds(runs[id], owner, generation, at) { return LeaseLost; }
      var run := runs[id];
      var spent := run.attempts >= run.maxAttempts;
      if !spent && Power(run.attempts) > INTEGER_MAX { return Rejected; }
      runs := runs[id := run.(status := if spent then DeadLetter else RetryWait, owner := None, expiresAt := None,
        nextRetryAt := if spent then None else Some(at + Backoff(run.attempts) * SECOND),
        lastError := Some((errorCode, text)), deadLetterReason := if spent then Some(errorCode) else None,
        finishedAt := if spent then Some(at) else None)];
      reply := Done;
    }
  }
}
