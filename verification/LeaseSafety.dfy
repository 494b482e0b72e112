/** What holds of the leased queue over every run of every set of workers. */
module LeaseSafety {
  import opened Ordering
  import opened LeaseQueue

  // ---------------------------------------------------------------- traces

  /** The table after a sequence of calls, from an empty one. */
  function Exec(calls: seq<Call>): Table {
    if calls == [] then Table(map[], []) else Step(Exec(calls[..|calls| - 1]), calls[|calls| - 1]).0
  }

  /** The reply to call `k`. */
  function ReplyAt(calls: seq<Call>, k: nat): Reply
    requires k < |calls|
  {
    Step(Exec(calls[..k]), calls[k]).1
  }

  function Clock(calls: seq<Call>): nat {
    if calls == [] then 0 else ClockAfter(Clock(calls[..|calls| - 1]), calls[|calls| - 1])
  }

  /** The clock never goes back from one reading to the next. */
  predicate Timed(calls: seq<Call>) {
    calls == [] || (Timed(calls[..|calls| - 1]) && Timely(Clock(calls[..|calls| - 1]), calls[|calls| - 1]))
  }

  lemma ExecSnoc(calls: seq<Call>, k: nat)
    requires k < |calls|
    ensures Exec(calls[..k + 1]) == Step(Exec(calls[..k]), calls[k]).0
  {
    var p := calls[..k + 1];
    assert p[..|p| - 1] == calls[..k];
  }

  lemma TimedSnoc(calls: seq<Call>, k: nat)
    requires k < |calls| && Timed(calls[..k + 1])
    ensures Timed(calls[..k]) && Timely(Clock(calls[..k]), calls[k])
    ensures Clock(calls[..k + 1]) == ClockAfter(Clock(calls[..k]), calls[k]) >= Clock(calls[..k])
  {
    var p := calls[..k + 1];
    assert p[..|p| - 1] == calls[..k];
  }

  // ---------------------------------------------------------------- rows and steps

  /** What every row satisfies. */
  predicate GoodRun(r: Run) {
    && 1 <= r.maxAttempts <= INTEGER_MAX && r.attempts <= r.maxAttempts && r.generation == r.attempts
    && (r.status == Running <==> r.owner.Some?) && (r.status == Running <==> r.expiresAt.Some?)
    && (r.status == RetryWait <==> r.nextRetryAt.Some?)
    && (r.status == Queued ==> r.attempts == 0)
    && (r.status == Running ==> r.attempts >= 1)
    && (r.status == RetryWait ==> r.attempts < r.maxAttempts)
    && (r.status == DeadLetter ==> r.attempts == r.maxAttempts && r.deadLetterReason.Some?)
    && (r.status == Succeeded ==> r.resultHash.Some?)
    && (Terminal(r) <==> r.finishedAt.Some?)
  }

  /** The steps a run still has to go, at most. */
  function Measure(r: Run): int {
    if Terminal(r) then 0 else 2 * (r.maxAttempts - r.attempts) + if r.status == Running then 1 else 0
  }

  /** A row before and after one call. */
  predicate Moves(r: Run, r': Run) {
    && GoodRun(r) && GoodRun(r')
    && r'.maxAttempts == r.maxAttempts && r'.request == r.request
    && (r' == r || (!Terminal(r) && Measure(r') < Measure(r) && r'.generation >= r.generation))
  }

  lemma SweptMoves(r: Run, t: nat)
    requires GoodRun(r)
    ensures Moves(r, Swept(r, t))
  {}

  lemma LeasedMoves(r: Run, owner: string, t: nat, lease: nat, at: nat)
    requires GoodRun(r) && Claimable(r, at)
    ensures Moves(r, Leased(r, owner, t, lease))
  {}

  lemma CompletedMoves(r: Run, owner: string, generation: int, t: nat, o: Outcome, finished: nat)
    requires GoodRun(r) && Holds(r, owner, generation, t) && (o.succeeded ==> o.resultHash.Some?)
    ensures Moves(r, Completed(r, o, finished))
  {}

  lemma ReleasedMoves(r: Run, owner: string, generation: int, t: nat, code: string, message: string)
    requires GoodRun(r) && Holds(r, owner, generation, t)
    ensures Moves(r, Released(r, code, message, t))
  {}

  /** Ids are given out one by one. */
  ghost predicate Numbered(ids: set<nat>) { forall id: nat :: id in ids <==> 1 <= id <= |ids| }

  ghost predicate GoodRuns(runs: map<nat, Run>) {
    Numbered(runs.Keys) && forall id :: id in runs ==> GoodRun(runs[id])
  }

  lemma NextNumbered(ids: set<nat>)
    requires Numbered(ids)
    ensures |ids| + 1 !in ids && Numbered(ids + {|ids| + 1})
  {
    assert |ids + {|ids| + 1}| == |ids| + 1;
  }

  lemma FreshKeeps(runs: map<nat, Run>, r: Run)
    requires GoodRuns(runs) && GoodRun(r)
    ensures FreshId(runs) !in runs && GoodRuns(runs[FreshId(runs) := r])
  {
    assert FreshId(runs) == |runs.Keys| + 1;
    NextNumbered(runs.Keys);
    AddedGood(runs, FreshId(runs), r);
  }

  lemma AddedGood(runs: map<nat, Run>, id: nat, r: Run)
    requires Numbered(runs.Keys + {id}) && (forall k :: k in runs ==> GoodRun(runs[k])) && GoodRun(r)
    ensures GoodRuns(runs[id := r])
  {
    assert runs[id := r].Keys == runs.Keys + {id};
  }

  lemma UpdateKeeps(runs: map<nat, Run>, id: nat, r: Run)
    requires GoodRuns(runs) && GoodRun(r) && id in runs
    ensures GoodRuns(runs[id := r])
  {
    assert runs[id := r].Keys == runs.Keys;
  }

  /** The rows before and after one call. */
  ghost predicate Advances(runs: map<nat, Run>, runs': map<nat, Run>) {
    && GoodRuns(runs) && GoodRuns(runs') && runs.Keys <= runs'.Keys
    && (forall id :: id in runs ==> Moves(runs[id], runs'[id]))
  }

  /** The run that a claim leases, if it leases one. */
  predicate Takes(reply: Reply, id: nat) { reply.Claimed? && reply.id == id }

  function AfterClaim(r: Run, taken: bool, c: Call): Run
    requires c.Claim? && c.lease >= 0
  {
    if taken then Leased(r, Trim(c.worker), c.leasedAt, c.lease) else Swept(r, c.sweptAt)
  }

  /** A claim sweeps every row but the one it leases. */
  lemma ClaimRows(s: Table, c: Call)
    requires c.Claim? && Trim(c.worker) != "" && c.lease >= 1
    ensures var r := Step(s, c);
      && r.0.saved == s.saved && r.0.runs.Keys == s.runs.Keys
      && (forall id :: id in s.runs ==> r.0.runs[id] == AfterClaim(s.runs[id], Takes(r.1, id), c))
      && (r.1.Claimed? ==> r.1.id in s.runs && Claimable(s.runs[r.1.id], c.selectedAt))
      && (!r.1.Claimed? ==> r.1 == NoRun)
  {
    var swept := SweepAll(s.runs, c.sweptAt);
    var next := Next(swept, c.selectedAt);
    assert swept.Keys == s.runs.Keys;
    if next.Some? { ClaimedNotSwept(s.runs[next.value], c.sweptAt, c.selectedAt); }
  }

  lemma ClaimMoves(s: Table, c: Call)
    requires GoodRuns(s.runs) && c.Claim?
    ensures Advances(s.runs, Step(s, c).0.runs)
  {
    if Trim(c.worker) != "" && c.lease >= 1 {
      ClaimRows(s, c);
      var r := Step(s, c);
      forall id | id in s.runs ensures Moves(s.runs[id], r.0.runs[id]) {
        if Takes(r.1, id) {
          LeasedMoves(s.runs[id], Trim(c.worker), c.leasedAt, c.lease, c.selectedAt);
        } else {
          SweptMoves(s.runs[id], c.sweptAt);
        }
      }
    }
  }

  lemma UpdateAdvances(runs: map<nat, Run>, id: nat, r: Run)
    requires GoodRuns(runs) && id in runs && Moves(runs[id], r)
    ensures Advances(runs, runs[id := r])
  {
    UpdateKeeps(runs, id, r);
  }

  lemma SameAdvances(runs: map<nat, Run>)
    requires GoodRuns(runs)
    ensures Advances(runs, runs)
  {}

  lemma CreateMoves(s: Table, c: Call)
    requires GoodRuns(s.runs) && c.Create?
    ensures Advances(s.runs, Step(s, c).0.runs)
  {
    if Step(s, c).1.Created? {
      FreshKeeps(s.runs, NewRun(c.request.(key := Trim(c.request.key)), c.max));
    }
  }

  /** What one call does to any one row: it makes at most one move, and the rows stay good. */
  lemma StepMoves(s: Table, c: Call)
    requires GoodRuns(s.runs)
    ensures Advances(s.runs, Step(s, c).0.runs)
  {
    SameAdvances(s.runs);
    match c {
      case Create(_, _, _) => { CreateMoves(s, c); }
      case Claim(_, _, _, _, _) => { ClaimMoves(s, c); }
      case Complete(id, worker, generation, outcome, at, rechecked, completed) => {
        if Completing(s, c).1 == Done {
          CompletedMoves(s.runs[id], Trim(worker), generation, rechecked, outcome, completed);
          UpdateAdvances(s.runs, id, Completed(s.runs[id], outcome, completed));
        }
      }
      case Fail(id, worker, generation, code, message, at) => {
        if Failing(s, c).1 == Done {
          ReleasedMoves(s.runs[id], Trim(worker), generation, at, Trim(code), Trim(message));
          UpdateAdvances(s.runs, id, Released(s.runs[id], Trim(code), Trim(message), at));
        }
      }
    }
  }

  /** The run a claim leases is not one its sweep has just given up. */
  lemma ClaimedNotSwept(r: Run, swept: nat, selected: nat)
    requires Claimable(Swept(r, swept), selected)
    ensures Swept(r, swept) == r
  {}

  // ---------------------------------------------------------------- results are saved once

  /** Each run has at most one saved result; it is the one the run shows, and runs that finished have one. */
  predicate GoodSaved(s: Table) {
    && (forall i, j :: 0 <= i < j < |s.saved| ==> s.saved[i].run != s.saved[j].run)
    && (forall i :: 0 <= i < |s.saved| ==> Shows(s, s.saved[i]))
    && (forall id :: id in s.runs && Finished(s.runs[id]) ==> HasSaved(s, id))
  }

  predicate Shows(s: Table, w: Saved) {
    && w.run in s.runs && s.runs[w.run].generation == w.generation
    && s.runs[w.run].request.inputHash == w.outcome.inputHash
    && s.runs[w.run].status == (if w.outcome.succeeded then Succeeded else Failed)
    && s.runs[w.run].resultHash == w.outcome.resultHash
  }

  predicate HasSaved(s: Table, id: nat) { exists i :: 0 <= i < |s.saved| && s.saved[i].run == id }

  predicate Finished(r: Run) { r.status in {Succeeded, Failed} }

  /** Only a completion finishes a run, and it saves a result for it. */
  lemma StepFinishes(s: Table, c: Call, id: nat)
    requires GoodRuns(s.runs) && id in Step(s, c).0.runs && Finished(Step(s, c).0.runs[id])
    requires id in s.runs ==> !Finished(s.runs[id])
    ensures c.Complete? && Step(s, c).1 == Done && c.id == id
  {
    if c.Claim? { ClaimFinishesNone(s, c, id); }
  }

  lemma ClaimFinishesNone(s: Table, c: Call, id: nat)
    requires c.Claim?
    ensures id in Step(s, c).0.runs && Finished(Step(s, c).0.runs[id]) ==> id in s.runs && Finished(s.runs[id])
  {
    if Trim(c.worker) != "" && c.lease >= 1 { ClaimRows(s, c); }
  }

  /** A completion adds one saved result; nothing else touches them. */
  lemma StepSaves(s: Table, c: Call)
    ensures var r := Step(s, c);
      if c.Complete? && r.1 == Done
      then && c.id >= 1 && c.id in s.runs && !Terminal(s.runs[c.id]) && |r.0.saved| == |s.saved| + 1
           && r.0.saved[..|s.saved|] == s.saved && r.0.saved[|s.saved|].run == c.id && Shows(r.0, r.0.saved[|s.saved|])
      else r.0.saved == s.saved
  {}

  lemma ShownStays(s: Table, s': Table, w: Saved)
    requires Advances(s.runs, s'.runs) && Shows(s, w)
    ensures Shows(s', w)
  {
    assert Moves(s.runs[w.run], s'.runs[w.run]);
  }

  lemma StepSaved(s: Table, c: Call)
    requires GoodRuns(s.runs) && GoodSaved(s)
    ensures GoodSaved(Step(s, c).0)
  {
    StepMoves(s, c);
    StepSaves(s, c);
    var s' := Step(s, c).0;
    forall id | id in s'.runs && Finished(s'.runs[id]) && (id in s.runs ==> !Finished(s.runs[id]))
      ensures |s'.saved| > |s.saved| && s'.saved[|s.saved|].run == id
    {
      StepFinishes(s, c, id);
    }
    SavedGrows(s, s');
  }

  /** The saved results of `s'` are those of `s` and at most one more, for a run not finished in `s`. */
  ghost predicate SavesOne(s: Table, s': Table) {
    && |s.saved| <= |s'.saved| <= |s.saved| + 1 && s'.saved[..|s.saved|] == s.saved
    && (|s'.saved| > |s.saved| ==>
        var w := s'.saved[|s.saved|]; Shows(s', w) && w.run in s.runs && !Terminal(s.runs[w.run]))
  }

  lemma SavedOnce(s: Table, s': Table, i: nat, j: nat)
    requires SavesOne(s, s') && GoodSaved(s) && i < j < |s'.saved|
    ensures s'.saved[i].run != s'.saved[j].run
  {
    assert s'.saved[i] == s'.saved[..|s.saved|][i] == s.saved[i];
    assert Shows(s, s.saved[i]);
    if j < |s.saved| { assert s'.saved[j] == s'.saved[..|s.saved|][j] == s.saved[j]; }
  }

  lemma SavedSame(a: seq<Saved>, b: seq<Saved>, i: nat)
    requires |a| <= |b| && b[..|a|] == a && i < |a|
    ensures b[i] == a[i]
  {
    assert b[..|a|][i] == b[i];
  }

  lemma SavedShown(s: Table, s': Table, i: nat)
    requires Advances(s.runs, s'.runs) && SavesOne(s, s') && GoodSaved(s) && i < |s'.saved|
    ensures Shows(s', s'.saved[i])
  {
    if i < |s.saved| {
      SavedSame(s.saved, s'.saved, i);
      OldShown(s, s', i);
    } else {
      NewShown(s, s');
    }
  }

  lemma NewShown(s: Table, s': Table)
    requires SavesOne(s, s') && |s'.saved| > |s.saved|
    ensures Shows(s', s'.saved[|s.saved|])
  {}

  lemma OldShown(s: Table, s': Table, i: nat)
    requires Advances(s.runs, s'.runs) && i < |s.saved| && Shows(s, s.saved[i])
    ensures Shows(s', s.saved[i])
  {
    ShownStays(s, s', s.saved[i]);
  }

  lemma SavedStays(s: Table, s': Table, id: nat)
    requires SavesOne(s, s') && HasSaved(s, id)
    ensures HasSaved(s', id)
  {
    var i :| 0 <= i < |s.saved| && s.saved[i].run == id;
    assert s'.saved[i] == s'.saved[..|s.saved|][i] == s.saved[i];
  }

  lemma SavedGrows(s: Table, s': Table)
    requires Advances(s.runs, s'.runs) && GoodSaved(s) && SavesOne(s, s')
    requires forall id :: (id in s'.runs && Finished(s'.runs[id]) && (id in s.runs ==> !Finished(s.runs[id])))
                     ==> (|s'.saved| > |s.saved| && s'.saved[|s.saved|].run == id)
    ensures GoodSaved(s')
  {
    forall i | 0 <= i < |s'.saved| ensures Shows(s', s'.saved[i]) { SavedShown(s, s', i); }
    forall id | id in s'.runs && Finished(s'.runs[id]) ensures HasSaved(s', id) {
      if id in s.runs && Finished(s.runs[id]) { SavedStays(s, s', id); }
    }
    forall i, j | 0 <= i < j < |s'.saved| ensures s'.saved[i].run != s'.saved[j].run { SavedOnce(s, s', i, j); }
  }

  /** Every reachable table is good. */
  lemma {:induction false} ReachableGood(calls: seq<Call>)
    ensures GoodRuns(Exec(calls).runs) && GoodSaved(Exec(calls))
    decreases |calls|
  {
    if calls != [] {
      ReachableGood(calls[..|calls| - 1]);
      StepMoves(Exec(calls[..|calls| - 1]), calls[|calls| - 1]);
      StepSaved(Exec(calls[..|calls| - 1]), calls[|calls| - 1]);
    }
  }

  // ---------------------------------------------------------------- over time

  /** The rows after `k` calls. */
  function Rows(calls: seq<Call>, k: nat): map<nat, Run>
    requires k <= |calls|
  {
    Exec(calls[..k]).runs
  }

  lemma Advancing(calls: seq<Call>, k: nat)
    requires k < |calls|
    ensures Advances(Rows(calls, k), Rows(calls, k + 1))
  {
    ReachableGood(calls[..k]);
    ExecSnoc(calls, k);
    StepMoves(Exec(calls[..k]), calls[k]);
  }

  /** From one moment to a later one a run only moves on: its generation never falls, its measure never
      rises, and a terminal run stays exactly as it is. */
  lemma {:induction false} RunsOnlyMoveOn(calls: seq<Call>, i: nat, j: nat, id: nat)
    requires i <= j <= |calls| && id in Rows(calls, i)
    ensures id in Rows(calls, j) && Onward(Rows(calls, i)[id], Rows(calls, j)[id])
    decreases j - i
  {
    if i < j {
      RunsOnlyMoveOn(calls, i, j - 1, id);
      OnwardNext(calls, Rows(calls, i)[id], j - 1, id);
    } else {
      ReachableGood(calls[..i]);
    }
  }

  lemma OnwardNext(calls: seq<Call>, r: Run, k: nat, id: nat)
    requires k < |calls| && id in Rows(calls, k) && Onward(r, Rows(calls, k)[id])
    ensures id in Rows(calls, k + 1) && Onward(r, Rows(calls, k + 1)[id])
  {
    Advancing(calls, k);
    OnwardStep(r, Rows(calls, k)[id], Rows(calls, k + 1)[id]);
  }

  predicate Onward(r: Run, r': Run) {
    && GoodRun(r) && GoodRun(r') && r'.maxAttempts == r.maxAttempts && r'.request == r.request
    && r'.generation >= r.generation && Measure(r') <= Measure(r) && (Terminal(r) ==> r' == r)
  }

  lemma OnwardStep(r: Run, r1: Run, r2: Run)
    requires Onward(r, r1) && Moves(r1, r2)
    ensures Onward(r, r2)
  {}

  /** What a completion brought is what the run shows from then on, whatever is called after it. */
  lemma CompletionStays(calls: seq<Call>, i: nat, k: nat)
    requires i < k <= |calls| && calls[i].Complete? && ReplyAt(calls, i) == Done
    ensures var id := calls[i].id; id >= 1 && id in Exec(calls[..i]).runs && id in Exec(calls[..k]).runs
    ensures Exec(calls[..k]).runs[calls[i].id]
         == Completed(Exec(calls[..i]).runs[calls[i].id], calls[i].outcome, calls[i].completedAt)
  {
    ExecSnoc(calls, i);
    RunsOnlyMoveOn(calls, i + 1, k, calls[i].id);
  }

  /** At most one completion is ever accepted for a run, in any sequence of calls, and its saved rows are
      the only ones the run has. */
  lemma CompletedOnce(calls: seq<Call>, i: nat, j: nat)
    requires i < j < |calls| && calls[i].Complete? && ReplyAt(calls, i) == Done
    requires calls[j].Complete? && ReplyAt(calls, j) == Done
    ensures calls[i].id != calls[j].id
  {
    CompletionStays(calls, i, j);
  }

  /** A completion or failure takes effect only for the worker that holds the current lease, unexpired at
      the moment of the update, and a completion only for the run's own input. */
  lemma OnlyTheHolderActs(calls: seq<Call>, k: nat)
    requires k < |calls| && (calls[k].Complete? || calls[k].Fail?)
    ensures var s, c := Exec(calls[..k]), calls[k];
      var t := if c.Complete? then c.recheckedAt else c.at;
      if ReplyAt(calls, k) == Done
      then && c.id >= 1 && c.id in s.runs && s.runs[c.id].status == Running
           && s.runs[c.id].owner == Some(Trim(c.worker)) && s.runs[c.id].generation == c.generation
           && s.runs[c.id].expiresAt.Some? && t < s.runs[c.id].expiresAt.value
           && (c.Complete? ==> s.runs[c.id].request.inputHash == c.outcome.inputHash)
      else Exec(calls[..k + 1]) == s
  {
    ExecSnoc(calls, k);
  }

  /** Fencing: once a run has been leased again, every completion or failure that names an earlier
      generation - from any worker, also the one that now holds the lease - changes nothing. */
  lemma StaleGenerationIsFenced(calls: seq<Call>, i: nat, k: nat, id: nat)
    requires i <= k < |calls| && id in Exec(calls[..i]).runs
    requires (calls[k].Complete? || calls[k].Fail?) && calls[k].id == id
    requires calls[k].generation < Exec(calls[..i]).runs[id].generation
    ensures ReplyAt(calls, k) != Done && Exec(calls[..k + 1]) == Exec(calls[..k])
  {
    RunsOnlyMoveOn(calls, i, k, id);
    OnlyTheHolderActs(calls, k);
  }

  /** The lease of generation `g` can no longer be used. */
  predicate Lost(s: Table, now: nat, id: nat, g: int) {
    id in s.runs && (s.runs[id].generation > g || s.runs[id].status != Running || Expired(s.runs[id], now))
  }

  lemma StepLost(s: Table, now: nat, c: Call, id: nat, g: int)
    requires GoodRuns(s.runs) && Timely(now, c) && Lost(s, now, id, g) && g <= s.runs[id].generation
    ensures Lost(Step(s, c).0, ClockAfter(now, c), id, g)
  {
    StepMoves(s, c);
    assert Moves(s.runs[id], Step(s, c).0.runs[id]);
  }

  /** A lease that expired, or was given up, is lost for good, even if nobody claims the run after it. */
  lemma {:induction false} ExpiredLeaseIsFenced(calls: seq<Call>, i: nat, k: nat, id: nat, g: int)
    requires i <= k < |calls| && Timed(calls[..k + 1])
    requires Lost(Exec(calls[..i]), Clock(calls[..i]), id, g) && g <= Exec(calls[..i]).runs[id].generation
    requires (calls[k].Complete? || calls[k].Fail?) && calls[k].id == id && calls[k].generation == g
    ensures ReplyAt(calls, k) != Done && Exec(calls[..k + 1]) == Exec(calls[..k])
  {
    TimedSnoc(calls, k);
    LostStays(calls, i, k, id, g);
    OnlyTheHolderActs(calls, k);
  }

  lemma {:induction false} LostStays(calls: seq<Call>, i: nat, k: nat, id: nat, g: int)
    requires i <= k <= |calls| && Timed(calls[..k])
    requires Lost(Exec(calls[..i]), Clock(calls[..i]), id, g) && g <= Exec(calls[..i]).runs[id].generation
    ensures Lost(Exec(calls[..k]), Clock(calls[..k]), id, g) && g <= Exec(calls[..k]).runs[id].generation
    decreases k
  {
    if i < k {
      TimedSnoc(calls, k - 1);
      LostStays(calls, i, k - 1, id, g);
      LostStep(calls, k - 1, id, g);
      RunsOnlyMoveOn(calls, i, k, id);
    }
  }

  lemma LostStep(calls: seq<Call>, k: nat, id: nat, g: int)
    requires k < |calls| && Timely(Clock(calls[..k]), calls[k])
    requires Clock(calls[..k + 1]) == ClockAfter(Clock(calls[..k]), calls[k])
    requires Lost(Exec(calls[..k]), Clock(calls[..k]), id, g) && g <= Exec(calls[..k]).runs[id].generation
    ensures Lost(Exec(calls[..k + 1]), Clock(calls[..k + 1]), id, g)
  {
    ReachableGood(calls[..k]);
    ExecSnoc(calls, k);
    StepLost(Exec(calls[..k]), Clock(calls[..k]), calls[k], id, g);
  }

  // ---------------------------------------------------------------- bounded

  /** How often run `id` was claimed in the first `k` calls. */
  function Claims(calls: seq<Call>, k: nat, id: nat): nat
    requires k <= |calls|
  {
    if k == 0 then 0 else
      Claims(calls, k - 1, id) + if Takes(ReplyAt(calls, k - 1), id) then 1 else 0
  }

  /** How often the row of run `id` was changed in the first `k` calls. */
  function Changes(calls: seq<Call>, k: nat, id: nat): nat
    requires k <= |calls|
  {
    if k == 0 then 0 else Changes(calls, k - 1, id) + if Changed(Rows(calls, k - 1), Rows(calls, k), id) then 1 else 0
  }

  predicate Changed(runs: map<nat, Run>, runs': map<nat, Run>, id: nat) {
    id in runs && id in runs' && runs[id] != runs'[id]
  }

  function Attempts(s: Table, id: nat): nat { if id in s.runs then s.runs[id].attempts else 0 }

  lemma StepClaims(s: Table, c: Call, id: nat)
    requires GoodRuns(s.runs)
    ensures Attempts(Step(s, c).0, id)
         == Attempts(s, id) + if Takes(Step(s, c).1, id) then 1 else 0
  {
    match c {
      case Create(_, _, _) => { CreateCounted(s, c, id); }
      case Claim(_, _, _, _, _) => { ClaimCounted(s, c, id); }
      case Complete(_, _, _, _, _, _, _) => { CompleteCounted(s, c, id); }
      case Fail(_, _, _, _, _, _) => { FailCounted(s, c, id); }
    }
  }

  lemma CreateCounted(s: Table, c: Call, id: nat)
    requires GoodRuns(s.runs) && c.Create?
    ensures Attempts(Step(s, c).0, id) == Attempts(s, id) && !Takes(Step(s, c).1, id)
  {
    NextNumbered(s.runs.Keys);
  }

  lemma CompleteCounted(s: Table, c: Call, id: nat)
    requires c.Complete?
    ensures Attempts(Step(s, c).0, id) == Attempts(s, id) && !Takes(Step(s, c).1, id)
  {}

  lemma FailCounted(s: Table, c: Call, id: nat)
    requires c.Fail?
    ensures Attempts(Step(s, c).0, id) == Attempts(s, id) && !Takes(Step(s, c).1, id)
  {}

  lemma ClaimCounted(s: Table, c: Call, id: nat)
    requires c.Claim?
    ensures Attempts(Step(s, c).0, id) == Attempts(s, id) + if Takes(Step(s, c).1, id) then 1 else 0
  {
    if Trim(c.worker) != "" && c.lease >= 1 { ClaimRows(s, c); }
  }

  lemma ClaimsStep(calls: seq<Call>, k: nat, id: nat)
    requires k < |calls|
    ensures Attempts(Exec(calls[..k + 1]), id)
         == Attempts(Exec(calls[..k]), id) + if Takes(ReplyAt(calls, k), id) then 1 else 0
  {
    ReachableGood(calls[..k]);
    ExecSnoc(calls, k);
    StepClaims(Exec(calls[..k]), calls[k], id);
  }

  lemma {:induction false} ClaimsCounted(calls: seq<Call>, k: nat, id: nat)
    requires k <= |calls|
    ensures Claims(calls, k, id) == Attempts(Exec(calls[..k]), id)
  {
    if k > 0 {
      ClaimsCounted(calls, k - 1, id);
      ClaimsStep(calls, k - 1, id);
    }
  }

  /** Every run is claimed exactly as often as its attempt count says, each claim gets its own generation,
      and there are at most `max_attempts` of them. */
  lemma ClaimsBounded(calls: seq<Call>, k: nat, id: nat)
    requires k <= |calls|
    ensures Claims(calls, k, id) == Attempts(Exec(calls[..k]), id)
    ensures id in Exec(calls[..k]).runs ==> Claims(calls, k, id) == Exec(calls[..k]).runs[id].generation
    ensures id in Exec(calls[..k]).runs ==> Claims(calls, k, id) <= Exec(calls[..k]).runs[id].maxAttempts
  {
    ClaimsCounted(calls, k, id);
    ReachableGood(calls[..k]);
    if id in Exec(calls[..k]).runs { AttemptsBounded(Exec(calls[..k]), id); }
  }

  lemma AttemptsBounded(s: Table, id: nat)
    requires GoodRuns(s.runs) && id in s.runs
    ensures Attempts(s, id) == s.runs[id].generation <= s.runs[id].maxAttempts
  {
    assert GoodRun(s.runs[id]);
  }

  lemma {:induction false} ChangesStep(runs: map<nat, Run>, runs': map<nat, Run>, id: nat)
    requires Advances(runs, runs') && id in runs
    ensures id in runs' && runs'[id].maxAttempts == runs[id].maxAttempts
    ensures runs'[id] == runs[id] || Measure(runs'[id]) < Measure(runs[id])
  {
    assert Moves(runs[id], runs'[id]);
  }

  /** A run changes at most 2 * max_attempts times, whatever is called. */
  lemma {:induction false} ChangesBounded(calls: seq<Call>, k: nat, id: nat)
    requires k <= |calls| && id in Rows(calls, k)
    ensures GoodRun(Rows(calls, k)[id])
    ensures Changes(calls, k, id) + Measure(Rows(calls, k)[id]) <= 2 * Rows(calls, k)[id].maxAttempts
  {
    assert k > 0;
    Advancing(calls, k - 1);
    assert GoodRun(Rows(calls, k)[id]);
    if id in Rows(calls, k - 1) {
      ChangesBounded(calls, k - 1, id);
      ChangesStep(Rows(calls, k - 1), Rows(calls, k), id);
    } else {
      NoChanges(calls, k - 1, id);
    }
  }

  lemma {:induction false} NoChanges(calls: seq<Call>, k: nat, id: nat)
    requires k <= |calls| && id !in Rows(calls, k)
    ensures Changes(calls, k, id) == 0
  {
    if k > 0 {
      Advancing(calls, k - 1);
      NoChanges(calls, k - 1, id);
    }
  }

  // ---------------------------------------------------------------- never stuck

  /** A run that waits for a worker or for the clock has nothing left to wait for. */
  predicate Due(r: Run, t: nat) {
    && (r.status == Running && r.expiresAt.Some? ==> r.expiresAt.value <= t)
    && (r.status == RetryWait && r.nextRetryAt.Some? ==> r.nextRetryAt.value <= t)
  }

  lemma DueIsTaken(s: Table, c: Call, id: nat)
    requires GoodRuns(s.runs) && c.Claim? && Trim(c.worker) != "" && c.lease >= 1 && Timely(0, c)
    requires id in s.runs && !Terminal(s.runs[id]) && Due(s.runs[id], c.sweptAt)
    ensures var r := Step(s, c);
      || (id in r.0.runs && r.0.runs[id].status == DeadLetter)
      || (r.1.Claimed? && r.1.id in s.runs && Before(s.runs, r.1.id, id) && r.1.id in r.0.runs
          && r.0.runs[r.1.id].status == Running && r.0.runs[r.1.id].owner == Some(Trim(c.worker)))
  {
    ClaimRows(s, c);
    var swept := SweepAll(s.runs, c.sweptAt);
    assert swept[id] == Swept(s.runs[id], c.sweptAt);
    assert GoodRun(s.runs[id]);
    if swept[id].status != DeadLetter {
      assert Claimable(swept[id], c.selectedAt);
      var next := Next(swept, c.selectedAt);
      assert Before(swept, next.value, id);
      assert swept[next.value] == Swept(s.runs[next.value], c.sweptAt);
    }
  }

  /** Never stuck: whenever an unfinished run of a reachable table has passed its lease or retry time, the next valid
      claim finishes it in its sweep or finds it claimable; it takes that run or one that comes before it. */
  lemma NeverStuck(calls: seq<Call>, c: Call, id: nat)
    requires c.Claim? && Trim(c.worker) != "" && c.lease >= 1 && Timely(0, c)
    requires id in Exec(calls).runs && !Terminal(Exec(calls).runs[id])
    requires Due(Exec(calls).runs[id], c.sweptAt)
    ensures var s, r := Exec(calls), Step(Exec(calls), c);
      || (id in r.0.runs && r.0.runs[id].status == DeadLetter)
      || (r.1.Claimed? && r.1.id in s.runs && Before(s.runs, r.1.id, id) && r.1.id in r.0.runs
          && r.0.runs[r.1.id].status == Running && r.0.runs[r.1.id].owner == Some(Trim(c.worker)))
  {
    ReachableGood(calls);
    DueIsTaken(Exec(calls), c, id);
  }

  lemma ClaimProgresses(s: Table, c: Call)
    requires GoodRuns(s.runs) && c.Claim? && Step(s, c).1.Claimed?
    ensures MeasureOf(Step(s, c).0, Step(s, c).1.id) < MeasureOf(s, Step(s, c).1.id)
  {
    StepMoves(s, c);
    StepClaims(s, c, Step(s, c).1.id);
    assert Moves(s.runs[Step(s, c).1.id], Step(s, c).0.runs[Step(s, c).1.id]);
  }

  lemma NothingLeft(s: Table, c: Call, id: nat)
    requires GoodRuns(s.runs) && c.Claim? && Trim(c.worker) != "" && c.lease >= 1 && Timely(0, c)
    requires (forall k :: k in s.runs ==> Due(s.runs[k], c.sweptAt)) && !Step(s, c).1.Claimed?
    requires id in Step(s, c).0.runs
    ensures Terminal(Step(s, c).0.runs[id])
  {
    StepMoves(s, c);
    ClaimRows(s, c);
    assert Moves(s.runs[id], Step(s, c).0.runs[id]);
    if !Terminal(s.runs[id]) { DueIsTaken(s, c, id); }
  }

  /** Once the clock has passed every lease and retry time, a claim either leases a run or leaves none unfinished; with
      `ChangesBounded`, workers that keep claiming bring every run to an end. */
  lemma QueueDrains(calls: seq<Call>, c: Call)
    requires c.Claim? && Trim(c.worker) != "" && c.lease >= 1 && Timely(0, c)
    requires forall id :: id in Exec(calls).runs ==> Due(Exec(calls).runs[id], c.sweptAt)
    ensures var r := Step(Exec(calls), c);
      (r.1.Claimed? && MeasureOf(r.0, r.1.id) < MeasureOf(Exec(calls), r.1.id))
      || forall id :: id in r.0.runs ==> Terminal(r.0.runs[id])
  {
    ReachableGood(calls);
    var s, r := Exec(calls), Step(Exec(calls), c);
    if r.1.Claimed? {
      ClaimProgresses(s, c);
    } else {
      forall id | id in r.0.runs ensures Terminal(r.0.runs[id]) { NothingLeft(s, c, id); }
    }
  }

  function MeasureOf(s: Table, id: nat): nat {
    if id in s.runs && s.runs[id].attempts <= s.runs[id].maxAttempts then Measure(s.runs[id]) else 0
  }

  // ---------------------------------------------------------------- recording a failure

  lemma {:induction false} PowerGrows(m: nat, n: nat)
    requires m <= n
    ensures Power(m) <= Power(n)
  {
    if m < n { PowerGrows(m, n - 1); }
  }

  lemma Powers()
    ensures Power(8) == 256 && Power(9) == 512 && Power(30) == 1073741824 && Power(31) == 2147483648
  {
    assert Power(9) == 512;
    assert Power(16) == 65536;
    assert Power(24) == 16777216;
    assert Power(30) == 1073741824;
  }

  /** The holder's failure report is recorded exactly when the run has no attempts left or fewer than 31
      behind it; otherwise the report is an error that changes nothing, and the run waits for its lease to
      expire. Recorded, the run is due again after 2^attempts seconds, at most 300. */
  lemma FailureRecordedIff(s: Table, c: Call)
    requires c.Fail? && GoodRuns(s.runs) && c.id >= 1 && c.generation >= 1
    requires Trim(c.worker) != "" && Trim(c.code) != "" && Trim(c.message) != ""
    requires c.id in s.runs && Holds(s.runs[c.id], Trim(c.worker), c.generation, c.at)
    ensures var r := s.runs[c.id]; var r' := Step(s, c).0.runs[c.id];
      && (Step(s, c).1 == Done <==> (r.attempts == r.maxAttempts || r.attempts < 31))
      && (Step(s, c).1 != Done ==> Step(s, c).0 == s)
      && (Step(s, c).1 == Done && r.attempts < r.maxAttempts ==>
          r'.status == RetryWait
          && r'.nextRetryAt == Some(c.at + (if r.attempts <= 8 then Power(r.attempts) else 300) * SECOND))
  {
    var r := s.runs[c.id];
    Powers();
    if r.attempts <= 8 { PowerGrows(r.attempts, 8); } else { PowerGrows(9, r.attempts); }
    if r.attempts < 31 { PowerGrows(r.attempts, 30); } else { PowerGrows(31, r.attempts); }
  }
}
