/** Requests to the leased queue: one run per idempotency key and per input, and a run whose failure cannot be
    reported. */
module LeaseRequests {
  import opened Ordering
  import opened LeaseQueue
  import opened LeaseSafety

  // ---------------------------------------------------------------- one run per request

  /** No two runs share an idempotency key, an input or an identity. */
  ghost predicate Apart(runs: map<nat, Run>) {
    forall a, b :: a in runs && b in runs && a != b ==> RequestsApart(runs[a].request, runs[b].request)
  }

  predicate RequestsApart(p: Request, q: Request) {
    p.key != q.key && p.inputHash != q.inputHash && p.identity != q.identity
  }

  lemma OldRequests(s: Table, c: Call, id: nat)
    requires GoodRuns(s.runs) && id in s.runs
    ensures id in Step(s, c).0.runs && Step(s, c).0.runs[id].request == s.runs[id].request
  {
    StepMoves(s, c);
    assert Moves(s.runs[id], Step(s, c).0.runs[id]);
  }

  /** Only a creation adds a run, and its request differs from all before. */
  lemma NewRequest(s: Table, c: Call, id: nat)
    requires id in Step(s, c).0.runs && id !in s.runs
    ensures c.Create? && Step(s, c).1 == Created(id)
    ensures forall a :: a in s.runs ==> RequestsApart(s.runs[a].request, Step(s, c).0.runs[id].request)
  {
    if c.Claim? && Trim(c.worker) != "" && c.lease >= 1 {
      ClaimRows(s, c);
    } else if c.Create? {
      var key := Trim(c.request.key);
      forall a | a in s.runs ensures RequestsApart(s.runs[a].request, c.request.(key := key)) {
        assert a in WithKey(s.runs, key) <==> s.runs[a].request.key == key;
      }
    }
  }

  lemma StepApart(s: Table, c: Call)
    requires GoodRuns(s.runs) && Apart(s.runs)
    ensures Apart(Step(s, c).0.runs)
  {
    var runs := Step(s, c).0.runs;
    forall a, b | a in runs && b in runs && a != b ensures RequestsApart(runs[a].request, runs[b].request) {
      if a in s.runs { OldRequests(s, c, a); } else { NewRequest(s, c, a); }
      if b in s.runs { OldRequests(s, c, b); } else { NewRequest(s, c, b); }
    }
  }

  /** In every reachable table each idempotency key and each input has at most one run. */
  lemma {:induction false} OneRunPerRequest(calls: seq<Call>)
    ensures Apart(Exec(calls).runs)
    decreases |calls|
  {
    if calls != [] {
      OneRunPerRequest(calls[..|calls| - 1]);
      ReachableGood(calls[..|calls| - 1]);
      StepApart(Exec(calls[..|calls| - 1]), calls[|calls| - 1]);
    }
  }

  /** Creation is idempotent over any run of calls: once a key has made a run, the same request under it is answered
      with that run, another one is refused, and neither changes anything. */
  lemma CreationIsIdempotent(calls: seq<Call>, i: nat, k: nat)
    requires i < k < |calls| && calls[i].Create? && ReplyAt(calls, i).Created?
    requires calls[k].Create? && Trim(calls[k].request.key) == Trim(calls[i].request.key) && calls[k].max >= 1
    ensures ReplyAt(calls, k) == if calls[k].request.body == calls[i].request.body then Replayed(ReplyAt(calls, i).id)
                                 else Rejected
    ensures Exec(calls[..k + 1]) == Exec(calls[..k])
  {
    var id, key := ReplyAt(calls, i).id, Trim(calls[i].request.key);
    ExecSnoc(calls, i);
    ExecSnoc(calls, k);
    RunsOnlyMoveOn(calls, i + 1, k, id);
    OneRunPerRequest(calls[..k]);
    var runs := Exec(calls[..k]).runs;
    assert runs[id].request == calls[i].request.(key := key);
    OnlyOneWithKey(runs, key, id);
  }

  lemma OnlyOneWithKey(runs: map<nat, Run>, key: string, id: nat)
    requires Apart(runs) && id in runs && runs[id].request.key == key
    ensures WithKey(runs, key) == {id}
  {}

  // ---------------------------------------------------------------- a failure that cannot be reported

  /** The clock at try `n`: two seconds after the one before it, whose lease lasts one. */
  function TryAt(n: nat): nat { 2 * n * SECOND }

  /** A request and `n` claims, none of which is completed or reported. */
  function Tries(request: Request, max: int, worker: string, n: nat): seq<Call> {
    if n == 0 then [Create(request, max, true)]
    else Tries(request, max, worker, n - 1) + [Claim(worker, 1, TryAt(n), TryAt(n), TryAt(n))]
  }

  /** The run after `n` such claims. */
  function Tried(request: Request, max: nat, worker: string, n: nat): Run {
    if n == 0 then NewRun(request.(key := Trim(request.key)), max)
    else Leased(Tried(request, max, worker, n - 1), Trim(worker), TryAt(n), 1)
  }

  lemma {:induction false} TriedIs(request: Request, max: nat, worker: string, n: nat)
    ensures var r := Tried(request, max, worker, n);
      && r.attempts == n && r.generation == n && r.maxAttempts == max
      && (n == 0 ==> r.status == Queued)
      && (n > 0 ==> r.status == Running && r.owner == Some(Trim(worker)) && r.expiresAt == Some(TryAt(n) + SECOND))
  {
    if n > 0 { TriedIs(request, max, worker, n - 1); }
  }

  lemma SingleSweep(r: Run, t: nat)
    ensures SweepAll(map[1 := r], t) == map[1 := Swept(r, t)]
  {}

  lemma SingleNext(r: Run, t: nat)
    requires Claimable(r, t)
    ensures Next(map[1 := r], t) == Some(1)
  {
    assert 1 in map[1 := r];
  }

  lemma ClaimAgain(r: Run, worker: string, t: nat)
    requires Trim(worker) != "" && Claimable(r, t)
    ensures Step(Table(map[1 := r], []), Claim(worker, 1, t, t, t)).0
          == Table(map[1 := Leased(r, Trim(worker), t, 1)], [])
  {
    assert Swept(r, t) == r;
    SingleSweep(r, t);
    SingleNext(r, t);
    assert map[1 := r][1 := Leased(r, Trim(worker), t, 1)] == map[1 := Leased(r, Trim(worker), t, 1)];
  }

  lemma {:induction false} TriesReach(request: Request, max: nat, worker: string, n: nat)
    requires Trim(request.key) != "" && Trim(worker) != "" && 1 <= max <= INTEGER_MAX && n <= max
    ensures Exec(Tries(request, max, worker, n)) == Table(map[1 := Tried(request, max, worker, n)], [])
  {
    var calls := Tries(request, max, worker, n);
    if n == 0 {
      assert calls[..|calls| - 1] == [];
      assert Exec([]) == Table(map[], []);
      assert WithKey(map[], Trim(request.key)) == {};
    } else {
      TriesReach(request, max, worker, n - 1);
      assert calls[..|calls| - 1] == Tries(request, max, worker, n - 1);
      TriedIs(request, max, worker, n - 1);
      ClaimAgain(Tried(request, max, worker, n - 1), worker, TryAt(n));
    }
  }

  lemma {:induction false} TriesTimed(request: Request, max: nat, worker: string, n: nat)
    ensures Timed(Tries(request, max, worker, n)) && Clock(Tries(request, max, worker, n)) == TryAt(n)
  {
    var calls := Tries(request, max, worker, n);
    if n == 0 {
      assert calls[..|calls| - 1] == [];
      assert Timed([]) && Clock([]) == 0;
      assert calls[|calls| - 1] == Create(request, max, true);
    } else {
      TriesTimed(request, max, worker, n - 1);
      assert calls[..|calls| - 1] == Tries(request, max, worker, n - 1);
    }
  }

  /** From an empty table, every run with a budget above 31 can reach a point where its holder, with a valid
      unexpired lease, reports a failure and is refused: after any number of attempts from 31 on, as long as some are
      left. */
  lemma FailureCanBeRefused(request: Request, max: nat, worker: string, n: nat, code: string, message: string)
    requires Trim(request.key) != "" && Trim(worker) != "" && Trim(code) != "" && Trim(message) != ""
    requires 31 <= n < max <= INTEGER_MAX
    ensures var calls := Tries(request, max, worker, n); var report := Fail(1, worker, n, code, message, TryAt(n));
      && Timed(calls + [report]) && 1 in Exec(calls).runs && Holds(Exec(calls).runs[1], Trim(worker), n, TryAt(n))
      && Step(Exec(calls), report) == (Exec(calls), Rejected)
  {
    TriesReach(request, max, worker, n);
    TriesTimed(request, max, worker, n);
    var all := Tries(request, max, worker, n) + [Fail(1, worker, n, code, message, TryAt(n))];
    assert all[..|all| - 1] == Tries(request, max, worker, n);
    TriedIs(request, max, worker, n);
    Powers();
    PowerGrows(31, n);
  }
}
