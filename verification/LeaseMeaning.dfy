/** What each call of the leased queue leaves in its row, and how long a lease is good for, over every run of calls. */
module LeaseMeaning {
  import opened Ordering
  import opened LeaseQueue
  import opened LeaseSafety

  // ---------------------------------------------------------------- claims

  /** The run waits for a worker: it is new, or its retry time or its lease is over, and it has attempts left. */
  predicate Waits(r: Run, t: nat) {
    && r.attempts < r.maxAttempts
    && (r.status == RetryWait ==> r.nextRetryAt.Some? && r.nextRetryAt.value <= t)
    && (r.status == Running ==> r.expiresAt.Some? && r.expiresAt.value <= t)
    && r.status in {Queued, RetryWait, Running}
  }

  /** The lease ran out on the last attempt. */
  predicate RanOut(r: Run, t: nat) {
    r.status == Running && r.expiresAt.Some? && r.expiresAt.value <= t && r.attempts >= r.maxAttempts
  }

  function GivenUp(r: Run, t: nat): Run {
    Run(DeadLetter, r.request, r.maxAttempts, r.attempts, r.generation, None, None, None, r.resultHash,
        Some("retry_attempts_exhausted"), r.lastError, r.startedAt, Some(t))
  }

  /** The row of a run that `worker` leases at `t` for `lease` seconds. */
  function Taken(r: Run, worker: string, t: nat, lease: nat): Run {
    Run(Running, r.request, r.maxAttempts, r.attempts + 1, r.generation + 1, Some(worker),
        Some(t + lease * 1_000_000), None, r.resultHash, None, r.lastError,
        if r.startedAt == None then Some(t) else r.startedAt, None)
  }

  /** `id` is the first in the queue among those that wait. */
  ghost predicate FirstWaiting(runs: map<nat, Run>, id: nat, t: nat) {
    && id in runs && Waits(runs[id], t)
    && forall k :: k in runs && Waits(runs[k], t) ==>
         || runs[id].request.requestedAt < runs[k].request.requestedAt
         || (runs[id].request.requestedAt == runs[k].request.requestedAt && id <= k)
  }

  lemma SweptIs(r: Run, t: nat)
    ensures Swept(r, t) == if RanOut(r, t) then GivenUp(r, t) else r
  {}

  lemma WaitsIs(r: Run, swept: nat, t: nat)
    ensures Claimable(Swept(r, swept), t) <==> Waits(r, t)
  {}

  lemma TakenIs(r: Run, worker: string, t: nat, lease: nat)
    ensures Leased(r, worker, t, lease) == Taken(r, worker, t, lease)
  {}

  lemma NextWaits(runs: map<nat, Run>, swept: nat, t: nat)
    ensures var n := Next(SweepAll(runs, swept), t);
      if n.Some? then FirstWaiting(runs, n.value, t) else forall id :: id in runs ==> !Waits(runs[id], t)
  {
    var all := SweepAll(runs, swept);
    var n := Next(all, t);
    forall id | id in runs
      ensures id in all && (Claimable(all[id], t) <==> Waits(runs[id], t)) && all[id].request == runs[id].request
    {
      WaitsIs(runs[id], swept, t);
    }
    if n.Some? {
      forall k | k in runs && Waits(runs[k], t)
        ensures || runs[n.value].request.requestedAt < runs[k].request.requestedAt
                || (runs[n.value].request.requestedAt == runs[k].request.requestedAt && n.value <= k)
      {
        assert k in all && Before(all, n.value, k);
      }
    }
  }

  /** A claim by a named worker for at least a second takes the first run that waits, for exactly that long; it gives up
      every run whose last lease ran out, and leaves every other row as it is. */
  lemma ClaimMeans(s: Table, c: Call)
    requires c.Claim? && Trim(c.worker) != "" && c.lease >= 1
    ensures var s', reply := Step(s, c).0, Step(s, c).1;
      && s'.saved == s.saved && s'.runs.Keys == s.runs.Keys
      && (if reply.Claimed?
          then && FirstWaiting(s.runs, reply.id, c.selectedAt)
               && s'.runs[reply.id] == Taken(s.runs[reply.id], Trim(c.worker), c.leasedAt, c.lease)
               && reply.generation == s.runs[reply.id].generation + 1
          else reply == NoRun && forall id :: id in s.runs ==> !Waits(s.runs[id], c.selectedAt))
      && (forall id :: id in s.runs && !Takes(reply, id) ==>
           s'.runs[id] == if RanOut(s.runs[id], c.sweptAt) then GivenUp(s.runs[id], c.sweptAt) else s.runs[id])
  {
    ClaimRows(s, c);
    NextWaits(s.runs, c.sweptAt, c.selectedAt);
    var reply := Step(s, c).1;
    if reply.Claimed? { TakenIs(s.runs[reply.id], Trim(c.worker), c.leasedAt, c.lease); }
    forall id | id in s.runs && !Takes(reply, id)
      ensures Step(s, c).0.runs[id]
           == if RanOut(s.runs[id], c.sweptAt) then GivenUp(s.runs[id], c.sweptAt) else s.runs[id]
    {
      SweptIs(s.runs[id], c.sweptAt);
    }
  }

  // ---------------------------------------------------------------- completions and failures

  /** The row of a run after the completion `c`. */
  function Closed(r: Run, c: Call): Run
    requires c.Complete?
  {
    Run(if c.outcome.succeeded then Succeeded else Failed, r.request, r.maxAttempts, r.attempts, r.generation, None,
        None, r.nextRetryAt, c.outcome.resultHash, r.deadLetterReason, r.lastError, r.startedAt, Some(c.completedAt))
  }

  /** The row of a run after the failure `c`: given up for the reported reason, or waiting for another attempt. */
  function Reported(r: Run, c: Call, wait: nat): Run
    requires c.Fail?
  {
    var error := Some((Trim(c.code), Trim(c.message)));
    if r.attempts < r.maxAttempts
    then Run(RetryWait, r.request, r.maxAttempts, r.attempts, r.generation, None, None, Some(c.at + wait * 1_000_000),
             r.resultHash, None, error, r.startedAt, None)
    else Run(DeadLetter, r.request, r.maxAttempts, r.attempts, r.generation, None, None, None,
             r.resultHash, Some(Trim(c.code)), error, r.startedAt, Some(c.at))
  }

  /** The lease of generation `g`: who holds it, and until when. */
  datatype Lease = Lease(id: nat, generation: nat, holder: string, until: nat)

  predicate InForce(s: Table, l: Lease) {
    && l.id in s.runs && s.runs[l.id].status == Running && s.runs[l.id].owner == Some(l.holder)
    && s.runs[l.id].generation == l.generation && s.runs[l.id].expiresAt == Some(l.until)
  }

  /** The row's lease is `l`, or it will never be the one of that generation again. */
  predicate AtMost(s: Table, l: Lease) {
    l.id in s.runs && s.runs[l.id].generation >= l.generation &&
    (s.runs[l.id].generation > l.generation || s.runs[l.id].status != Running || InForce(s, l))
  }

  /** What an accepted claim hands out. */
  function LeaseOf(c: Call, reply: Reply): Lease
    requires c.Claim? && c.lease >= 0 && reply.Claimed?
  {
    Lease(reply.id, reply.generation, Trim(c.worker), c.leasedAt + c.lease * 1_000_000)
  }

  /** What a claim leaves of one row. */
  lemma ClaimRow(s: Table, c: Call, id: nat)
    requires c.Claim? && Trim(c.worker) != "" && c.lease >= 1 && id in s.runs
    ensures var s', reply := Step(s, c).0, Step(s, c).1;
      && id in s'.runs
      && (Takes(reply, id) ==> Waits(s.runs[id], c.selectedAt) && reply.generation == s.runs[id].generation + 1)
      && s'.runs[id] == if Takes(reply, id) then Taken(s.runs[id], Trim(c.worker), c.leasedAt, c.lease)
                        else if RanOut(s.runs[id], c.sweptAt) then GivenUp(s.runs[id], c.sweptAt)
                        else s.runs[id]
  {
    ClaimMeans(s, c);
  }

  lemma GivesLease(s: Table, c: Call)
    requires c.Claim? && Step(s, c).1.Claimed?
    ensures c.lease >= 1 && Trim(c.worker) != "" && InForce(Step(s, c).0, LeaseOf(c, Step(s, c).1))
  {
    ClaimRows(s, c);
    ClaimRow(s, c, Step(s, c).1.id);
  }

  /** The call is a completion or failure report of the run that is accepted. */
  predicate Ends(c: Call, reply: Reply, id: nat) { (c.Complete? || c.Fail?) && c.id == id && reply == Done }

  /** The latest clock reading a call takes. */
  function Reading(c: Call): nat { ClockAfter(0, c) }

  lemma ReportLeavesRow(s: Table, c: Call, id: nat)
    requires (c.Complete? || c.Fail?) && !Ends(c, Step(s, c).1, id) && id in s.runs
    ensures id in Step(s, c).0.runs && Step(s, c).0.runs[id] == s.runs[id]
  {}

  lemma CreateLeavesRow(s: Table, c: Call, id: nat)
    requires c.Create? && GoodRuns(s.runs) && id in s.runs
    ensures id in Step(s, c).0.runs && Step(s, c).0.runs[id] == s.runs[id]
  {
    NextNumbered(s.runs.Keys);
  }

  lemma StaysInForce(s: Table, c: Call, l: Lease)
    requires GoodRuns(s.runs) && InForce(s, l) && !Ends(c, Step(s, c).1, l.id)
    requires Timely(0, c) && Reading(c) < l.until
    ensures InForce(Step(s, c).0, l)
  {
    if c.Create? {
      CreateLeavesRow(s, c, l.id);
    } else if c.Complete? || c.Fail? {
      ReportLeavesRow(s, c, l.id);
    } else if Trim(c.worker) != "" && c.lease >= 1 {
      ClaimRow(s, c, l.id);
    }
  }

  lemma EndsRow(s: Table, c: Call, id: nat)
    requires Ends(c, Step(s, c).1, id)
    ensures id in s.runs && id in Step(s, c).0.runs && Step(s, c).0.runs[id].status != Running
    ensures Step(s, c).0.runs[id].generation == s.runs[id].generation
  {}

  lemma StaysAtMost(s: Table, c: Call, l: Lease)
    requires GoodRuns(s.runs) && AtMost(s, l)
    ensures AtMost(Step(s, c).0, l)
  {
    if c.Create? {
      CreateLeavesRow(s, c, l.id);
    } else if Ends(c, Step(s, c).1, l.id) {
      EndsRow(s, c, l.id);
    } else if c.Complete? || c.Fail? {
      ReportLeavesRow(s, c, l.id);
    } else if Trim(c.worker) != "" && c.lease >= 1 {
      ClaimRow(s, c, l.id);
    }
  }

  /** Call `i` handed out the lease `l`. */
  predicate Grants(calls: seq<Call>, i: nat, l: Lease) {
    && i < |calls| && calls[i].Claim? && ReplyAt(calls, i).Claimed? && calls[i].lease >= 0
    && l == LeaseOf(calls[i], ReplyAt(calls, i))
  }

  lemma GrantedNow(calls: seq<Call>, i: nat, l: Lease)
    requires Grants(calls, i, l)
    ensures InForce(Exec(calls[..i + 1]), l)
  {
    ExecSnoc(calls, i);
    GivesLease(Exec(calls[..i]), calls[i]);
  }

  lemma AtMostNext(calls: seq<Call>, k: nat, l: Lease)
    requires k < |calls| && AtMost(Exec(calls[..k]), l)
    ensures AtMost(Exec(calls[..k + 1]), l)
  {
    ExecSnoc(calls, k);
    ReachableGood(calls[..k]);
    StaysAtMost(Exec(calls[..k]), calls[k], l);
  }

  lemma {:induction false} AtMostLater(calls: seq<Call>, i: nat, k: nat, l: Lease)
    requires i < k <= |calls| && AtMost(Exec(calls[..i + 1]), l)
    ensures AtMost(Exec(calls[..k]), l)
    decreases k
  {
    if k > i + 1 {
      AtMostLater(calls, i, k - 1, l);
      AtMostNext(calls, k - 1, l);
    }
  }

  lemma GrantedAtMost(calls: seq<Call>, i: nat, k: nat, l: Lease)
    requires i < k <= |calls| && Grants(calls, i, l)
    ensures AtMost(Exec(calls[..k]), l)
  {
    GrantedNow(calls, i, l);
    AtMostLater(calls, i, k, l);
  }

  /** Nobody ends the run between calls `i` and `k`. */
  ghost predicate Undisturbed(calls: seq<Call>, i: nat, k: nat, id: nat)
    requires k <= |calls|
  {
    forall j :: i < j < k ==> !Ends(calls[j], ReplyAt(calls, j), id)
  }

  lemma EarlierReading(calls: seq<Call>, j: nat, k: nat, now: nat)
    requires j < k <= |calls| && Timed(calls[..k]) && Clock(calls[..k]) <= now
    ensures Timely(0, calls[j]) && Reading(calls[j]) <= now && Timed(calls[..k - 1]) && Clock(calls[..k - 1]) <= now
    decreases k
  {
    TimedSnoc(calls, k - 1);
    if j < k - 1 { EarlierReading(calls, j, k - 1, now); }
  }

  lemma InForceNext(calls: seq<Call>, k: nat, l: Lease)
    requires k < |calls| && InForce(Exec(calls[..k]), l) && !Ends(calls[k], ReplyAt(calls, k), l.id)
    requires Timely(0, calls[k]) && Reading(calls[k]) < l.until
    ensures InForce(Exec(calls[..k + 1]), l)
  {
    ExecSnoc(calls, k);
    ReachableGood(calls[..k]);
    StaysInForce(Exec(calls[..k]), calls[k], l);
  }

  /** Call `j` leaves the lease alone: it does not end the run, and its readings do not reach the end of the lease. */
  ghost predicate QuietAt(calls: seq<Call>, j: nat, l: Lease)
    requires j < |calls|
  {
    !Ends(calls[j], ReplyAt(calls, j), l.id) && Timely(0, calls[j]) && Reading(calls[j]) < l.until
  }

  ghost predicate Quiet(calls: seq<Call>, i: nat, k: nat, l: Lease)
    requires k <= |calls|
  {
    forall j :: i < j < k ==> QuietAt(calls, j, l)
  }

  lemma IsQuiet(calls: seq<Call>, i: nat, k: nat, l: Lease)
    requires k <= |calls| && Undisturbed(calls, i, k, l.id) && Timed(calls[..k]) && Clock(calls[..k]) < l.until
    ensures Quiet(calls, i, k, l)
  {
    forall j | i < j < k ensures QuietAt(calls, j, l) {
      EarlierReading(calls, j, k, Clock(calls[..k]));
    }
  }

  lemma QuietNext(calls: seq<Call>, k: nat, l: Lease)
    requires k < |calls| && InForce(Exec(calls[..k]), l) && QuietAt(calls, k, l)
    ensures InForce(Exec(calls[..k + 1]), l)
  {
    InForceNext(calls, k, l);
  }

  /** What each step keeps holds throughout. */
  lemma {:induction false} Throughout(p: nat -> bool, i: nat, k: nat)
    requires i <= k && p(i) && forall j :: i <= j < k && p(j) ==> p(j + 1)
    ensures p(k)
    decreases k
  {
    if i < k { Throughout(p, i, k - 1); }
  }

  ghost function InForceAfter(calls: seq<Call>, l: Lease): nat -> bool {
    (j: nat) => j <= |calls| && InForce(Exec(calls[..j]), l)
  }

  lemma QuietStep(calls: seq<Call>, l: Lease, j: nat)
    requires j < |calls| && InForceAfter(calls, l)(j) && QuietAt(calls, j, l)
    ensures InForceAfter(calls, l)(j + 1)
  {
    QuietNext(calls, j, l);
  }

  lemma QuietThroughout(calls: seq<Call>, i: nat, k: nat, l: Lease)
    requires i < k <= |calls| && InForceAfter(calls, l)(i + 1) && Quiet(calls, i, k, l)
    ensures InForceAfter(calls, l)(k)
  {
    var p := InForceAfter(calls, l);
    forall j | i + 1 <= j < k && p(j) ensures p(j + 1) { QuietStep(calls, l, j); }
    Throughout(p, i + 1, k);
  }

  lemma GrantedInForce(calls: seq<Call>, i: nat, k: nat, l: Lease)
    requires i < k <= |calls| && Grants(calls, i, l) && Undisturbed(calls, i, k, l.id)
    requires Timed(calls[..k]) && Clock(calls[..k]) < l.until
    ensures InForce(Exec(calls[..k]), l)
  {
    GrantedNow(calls, i, l);
    IsQuiet(calls, i, k, l);
    QuietThroughout(calls, i, k, l);
  }

  /** The report `c` comes from the holder of the lease. */
  predicate FromHolder(c: Call, l: Lease) {
    (c.Complete? || c.Fail?) && c.id == l.id && c.generation == l.generation && Trim(c.worker) == l.holder
  }

  lemma GrantedNames(calls: seq<Call>, i: nat, l: Lease)
    requires Grants(calls, i, l)
    ensures l.id >= 1 && l.generation >= 1 && l.holder != ""
  {
    GivesLease(Exec(calls[..i]), calls[i]);
    GrantedNow(calls, i, l);
    ReachableGood(calls[..i + 1]);
    assert GoodRun(Exec(calls[..i + 1]).runs[l.id]);
  }

  lemma HeldCompletes(s: Table, c: Call, l: Lease)
    requires InForce(s, l) && l.id >= 1 && l.generation >= 1 && l.holder != ""
    requires c.Complete? && FromHolder(c, l) && c.at <= c.recheckedAt < l.until
    requires c.outcome.succeeded ==> c.outcome.resultHash.Some?
    ensures var s', reply := Step(s, c).0, Step(s, c).1;
      if s.runs[l.id].request.inputHash == c.outcome.inputHash
      then && reply == Done && s'.runs == s.runs[l.id := Closed(s.runs[l.id], c)]
           && s'.saved == s.saved + [Saved(l.id, l.generation, l.holder, c.recheckedAt, c.outcome)]
      else reply == Rejected && s' == s
  {}

  lemma HeldFails(s: Table, c: Call, l: Lease)
    requires GoodRuns(s.runs) && InForce(s, l) && l.id >= 1 && l.generation >= 1 && l.holder != ""
    requires c.Fail? && FromHolder(c, l) && c.at < l.until && Trim(c.code) != "" && Trim(c.message) != ""
    ensures var s', reply := Step(s, c).0, Step(s, c).1; var r := s.runs[l.id];
      if l.generation == r.maxAttempts || l.generation < 31
      then reply == Done && s'.runs == s.runs[l.id := Reported(r, c, WaitAfter(l.generation))] && s'.saved == s.saved
      else reply == Rejected && s' == s
  {
    assert GoodRun(s.runs[l.id]);
    FailureRecordedIff(s, c);
    WaitIs(l.generation);
  }

  /** Seconds until the next attempt: 2, 4, 8 and so on, and 300 from the ninth on. */
  function WaitAfter(attempts: nat): nat { if attempts <= 8 then Power(attempts) else 300 }

  lemma WaitIs(n: nat)
    ensures Backoff(n) == WaitAfter(n)
  {
    Powers();
    if n <= 8 { PowerGrows(n, 8); } else { PowerGrows(9, n); }
  }

  /** A lease is good for as long as it was asked for: a worker that was handed a run at `leasedAt` for `lease` seconds
      and completes it before they are over, with the run's input, is answered that it is done, and the run shows
      what it brought. */
  lemma LeaseLetsComplete(calls: seq<Call>, i: nat, k: nat, l: Lease)
    requires i < k < |calls| && Grants(calls, i, l) && Undisturbed(calls, i, k, l.id) && Timed(calls[..k + 1])
    requires calls[k].Complete? && FromHolder(calls[k], l) && calls[k].recheckedAt < l.until
    requires calls[k].outcome.succeeded ==> calls[k].outcome.resultHash.Some?
    ensures var s, s', c := Exec(calls[..k]), Exec(calls[..k + 1]), calls[k];
      && l.id in s.runs
      && if s.runs[l.id].request.inputHash == c.outcome.inputHash
         then && ReplyAt(calls, k) == Done && s'.runs == s.runs[l.id := Closed(s.runs[l.id], c)]
              && s'.saved == s.saved + [Saved(l.id, l.generation, l.holder, c.recheckedAt, c.outcome)]
         else ReplyAt(calls, k) == Rejected && s' == s
  {
    TimedSnoc(calls, k);
    GrantedInForce(calls, i, k, l);
    GrantedNames(calls, i, l);
    ExecSnoc(calls, k);
    HeldCompletes(Exec(calls[..k]), calls[k], l);
  }

  /** ... and one that reports a failure by then is answered that it is done, unless the run has 31 attempts or more
      behind it and some left; the run waits for its next attempt or is given up, with the reported code and message
      as its last error and the code as the reason. */
  lemma LeaseLetsFail(calls: seq<Call>, i: nat, k: nat, l: Lease)
    requires i < k < |calls| && Grants(calls, i, l) && Undisturbed(calls, i, k, l.id) && Timed(calls[..k + 1])
    requires calls[k].Fail? && FromHolder(calls[k], l) && calls[k].at < l.until
    requires Trim(calls[k].code) != "" && Trim(calls[k].message) != ""
    ensures var s, s', c := Exec(calls[..k]), Exec(calls[..k + 1]), calls[k];
      && l.id in s.runs && s.runs[l.id].attempts == l.generation
      && if l.generation == s.runs[l.id].maxAttempts || l.generation < 31
         then && ReplyAt(calls, k) == Done && s'.saved == s.saved
              && s'.runs == s.runs[l.id := Reported(s.runs[l.id], c, WaitAfter(l.generation))]
         else ReplyAt(calls, k) == Rejected && s' == s
  {
    TimedSnoc(calls, k);
    GrantedInForce(calls, i, k, l);
    GrantedNames(calls, i, l);
    ExecSnoc(calls, k);
    ReachableGood(calls[..k]);
    assert GoodRun(Exec(calls[..k]).runs[l.id]);
    HeldFails(Exec(calls[..k]), calls[k], l);
  }

  lemma OverIsLost(s: Table, c: Call, l: Lease)
    requires AtMost(s, l) && FromHolder(c, l) && l.id >= 1 && l.generation >= 1 && l.holder != "" && l.until <= c.at
    requires c.Fail? ==> Trim(c.code) != "" && Trim(c.message) != ""
    ensures Step(s, c) == (s, LeaseLost)
  {}

  lemma OverIsLostLate(s: Table, c: Call, l: Lease)
    requires AtMost(s, l) && FromHolder(c, l) && l.id >= 1 && l.generation >= 1 && l.holder != ""
    requires c.Complete? && l.until <= c.recheckedAt && s.runs[l.id].request.inputHash == c.outcome.inputHash
    ensures Step(s, c) == (s, LeaseLost)
  {}

  /** ... and for no longer: from then on its reports are answered that the lease is lost, and change nothing, whatever
      happened in between. A completion is also lost when only its second reading comes that late. */
  lemma LeaseRunsOut(calls: seq<Call>, i: nat, k: nat, l: Lease)
    requires i < k < |calls| && Grants(calls, i, l) && FromHolder(calls[k], l)
    requires calls[k].Fail? ==> Trim(calls[k].code) != "" && Trim(calls[k].message) != ""
    ensures l.id in Exec(calls[..k]).runs
    ensures l.until <= calls[k].at ==> ReplyAt(calls, k) == LeaseLost && Exec(calls[..k + 1]) == Exec(calls[..k])
    ensures calls[k].Complete? && l.until <= calls[k].recheckedAt
        && Exec(calls[..k]).runs[l.id].request.inputHash == calls[k].outcome.inputHash
        ==> ReplyAt(calls, k) == LeaseLost && Exec(calls[..k + 1]) == Exec(calls[..k])
  {
    GrantedAtMost(calls, i, k, l);
    GrantedNames(calls, i, l);
    ExecSnoc(calls, k);
    var s, c := Exec(calls[..k]), calls[k];
    if l.until <= c.at { OverIsLost(s, c, l); }
    if c.Complete? && l.until <= c.recheckedAt && s.runs[l.id].request.inputHash == c.outcome.inputHash {
      OverIsLostLate(s, c, l);
    }
  }

  // ---------------------------------------------------------------- creation

  /** A request is answered with the run that has its key, if that was made for the same request. Otherwise it makes a
      new run, exactly when its strategy and dataset are ready, no run has its input or its identity, and its attempt
      budget is a positive 32-bit integer. */
  lemma CreatedIff(s: Table, c: Call)
    requires c.Create?
    ensures var reply, key := Step(s, c).1, Trim(c.request.key);
      && (reply.Replayed? ==> reply.id in s.runs && s.runs[reply.id].request.key == key
                              && s.runs[reply.id].request.body == c.request.body)
      && (reply.Created? <==>
           && key != "" && 1 <= c.max <= 2147483647 && c.ready
           && forall id :: id in s.runs ==>
                && s.runs[id].request.key != key && s.runs[id].request.inputHash != c.request.inputHash
                && s.runs[id].request.identity != c.request.identity)
  {
    forall id | id in s.runs
      ensures s.runs[id].request.key == Trim(c.request.key) <==> id in WithKey(s.runs, Trim(c.request.key))
    {}
  }

  /** A new run waits, under the trimmed key, with no attempt made; any other answer changes nothing. */
  lemma CreateMeans(s: Table, c: Call)
    requires c.Create? && GoodRuns(s.runs)
    ensures var s', reply := Step(s, c).0, Step(s, c).1;
      && s'.saved == s.saved
      && (!reply.Created? ==> s' == s)
      && (reply.Created? ==>
           && reply.id !in s.runs && c.max >= 1
           && s'.runs == s.runs[reply.id := Run(Queued, Request(Trim(c.request.key), c.request.body, c.request.identity,
                                                                c.request.inputHash, c.request.requestedAt),
                                                c.max, 0, 0, None, None, None, None, None, None, None, None)])
  {
    NextNumbered(s.runs.Keys);
  }

  // ---------------------------------------------------------------- names

  predicate AllSpace(s: string) { forall i :: 0 <= i < |s| ==> Space(s[i]) }

  lemma {:induction false} TrimLeftMeans(s: string) returns (i: nat)
    ensures i <= |s| && AllSpace(s[..i]) && TrimLeft(s) == s[i..]
    ensures TrimLeft(s) != "" ==> !Space(TrimLeft(s)[0])
  {
    i := 0;
    if s != "" && Space(s[0]) {
      var rest := s[1..];
      i := TrimLeftMeans(rest);
      assert s[..i + 1] == [s[0]] + rest[..i] && s[i + 1..] == rest[i..];
      i := i + 1;
    }
  }

  lemma {:induction false} TrimRightMeans(s: string) returns (j: nat)
    ensures j <= |s| && AllSpace(s[j..]) && TrimRight(s) == s[..j]
    ensures TrimRight(s) != "" ==> !Space(TrimRight(s)[|TrimRight(s)| - 1])
    decreases |s|
  {
    j := |s|;
    if s != "" && Space(s[|s| - 1]) {
      var front := s[..|s| - 1];
      j := TrimRightMeans(front);
      assert s[j..] == front[j..] + [s[|s| - 1]] && s[..j] == front[..j];
    }
  }

  /** A trimmed name is what is left of the name without the space around it. */
  lemma TrimMeans(s: string) returns (before: string, behind: string)
    ensures AllSpace(before) && AllSpace(behind) && s == before + Trim(s) + behind
    ensures Trim(s) != "" ==> !Space(Trim(s)[0]) && !Space(Trim(s)[|Trim(s)| - 1])
  {
    var i := TrimLeftMeans(s);
    var left := TrimLeft(s);
    var j := TrimRightMeans(left);
    before, behind := s[..i], left[j..];
    assert left == left[..j] + left[j..] && s == s[..i] + s[i..];
    assert left[..j] != "" ==> left[..j][0] == left[0];
  }
}
