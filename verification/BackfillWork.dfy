/** Backfill jobs and their per-instrument targets (`_ensure_backfill_job`,
    `_cancel_superseded_source_backfill`, `_transition_market_backfill_work`, `claim_backfill_job`). */
module BackfillWork {
  import opened Ordering

  datatype JobStatus = Planned | Pending | Leased | Running | RetryWait | Paused | Cancelled | DeadLetter | Succeeded
    | Failed
  datatype TargetStatus = Waiting | Working | Held | Stopped | Finished | Broken

  /** `plan` holds the instruments a job was planned for, before it has targets of its own. */
  datatype Job = Job(status: JobStatus, sourceCandle: bool, plan: set<int>, start: int, end: int, priority: int,
                     createdAt: int,
                     key: JobKey, attempts: nat, maxAttempts: nat, owner: Option<string>, expiresAt: Option<int>,
                     nextRetryAt: Option<int>)

  /** The idempotency key of a job: chosen by a policy command, or made of what the job is for. */
  datatype JobKey = Chosen(text: string) | Default(spec: int, start: int, end: int)

  datatype Place = Place(job: int, instrument: int)
  datatype Target = Target(status: TargetStatus, spec: Option<int>)
  datatype State = Active | OnHold | Excluded

  predicate Live(j: Job) { j.status in {Planned, Pending, Leased, Running, RetryWait, Paused} }
  predicate Open(t: Target) { t.status in {Waiting, Working, Held} }
  predicate Runnable(t: Target) { t.status in {Waiting, Working} }

  predicate HasRunnable(targets: map<Place, Target>, job: int) {
    exists p :: p in targets && p.job == job && Runnable(targets[p])
  }

  predicate HasHeld(targets: map<Place, Target>, job: int) {
    exists p :: p in targets && p.job == job && targets[p].status == Held
  }

  // ---------------------------------------------------------------- taking an instrument out of jobs

  /** The jobs in which the instrument still has work. */
  function Affected(jobs: map<int, Job>, targets: map<Place, Target>, instrument: int, sourceOnly: bool): set<int> {
    set j | j in jobs && Live(jobs[j]) && (sourceOnly ==> jobs[j].sourceCandle)
      && Place(j, instrument) in targets && Open(targets[Place(j, instrument)])
  }

  /** The instrument's work in the given jobs, moved to another status. */
  function Moved(targets: map<Place, Target>, ids: set<int>, instrument: int, to: TargetStatus): map<Place, Target> {
    map p | p in targets ::
      if p.job in ids && p.instrument == instrument && Open(targets[p]) then targets[p].(status := to) else targets[p]
  }

  /** A job none of whose targets can run waits for a held one, and is cancelled when there is none. */
  function SettledJob(j: Job, id: int, targets: map<Place, Target>, clearRetry: bool): Job {
    if HasRunnable(targets, id) then j
    else j.(status := if HasHeld(targets, id) then Paused else Cancelled, owner := None, expiresAt := None,
            nextRetryAt := if clearRetry then None else j.nextRetryAt)
  }

  function Settled(jobs: map<int, Job>, ids: set<int>, targets: map<Place, Target>, clearRetry: bool): map<int, Job> {
    map id | id in jobs :: if id in ids then SettledJob(jobs[id], id, targets, clearRetry) else jobs[id]
  }

  // ---------------------------------------------------------------- bringing it back

  predicate Resumable(t: Target, activeSpecs: set<int>) {
    t.status == Held && (t.spec == None || t.spec.value in activeSpecs)
  }

  function Eligible(jobs: map<int, Job>, targets: map<Place, Target>, instrument: int,
                    activeSpecs: set<int>): set<int> {
    set j | j in jobs && Live(jobs[j]) && Place(j, instrument) in targets
            && Resumable(targets[Place(j, instrument)], activeSpecs)
  }

  function Resumed(targets: map<Place, Target>, ids: set<int>, instrument: int): map<Place, Target> {
    map p | p in targets ::
      if p.job in ids && p.instrument == instrument && targets[p].status == Held then targets[p].(status := Waiting)
      else targets[p]
  }

  function Reopened(jobs: map<int, Job>, ids: set<int>, targets: map<Place, Target>): map<int, Job> {
    map id | id in jobs :: if id in ids && jobs[id].status == Paused && HasRunnable(targets, id)
                           then jobs[id].(status := Pending, owner := None, expiresAt := None) else jobs[id]
  }

  // ---------------------------------------------------------------- new work

  /** A live job already has work for the instrument, or was planned for it and has no targets yet. */
  predicate Occupied(jobs: map<int, Job>, targets: map<Place, Target>, instrument: int) {
    exists j :: j in jobs && Live(jobs[j]) &&
      ((Place(j, instrument) in targets && Open(targets[Place(j, instrument)]))
       || ((forall p :: p in targets ==> p.job != j) && instrument in jobs[j].plan))
  }

  predicate DoneFor(jobs: map<int, Job>, targets: map<Place, Target>, spec: int, p: Place) {
    p in targets && p.job in jobs && targets[p].spec == Some(spec) && jobs[p.job].status == Succeeded
  }

  /** Where new work for the specification starts: where its succeeded jobs end, but not before `start`. */
  function StartFor(jobs: map<int, Job>, targets: map<Place, Target>, spec: int, start: int): (from: int)
    ensures from >= start && forall p :: DoneFor(jobs, targets, spec, p) ==> jobs[p.job].end <= from
    ensures from == start || exists p :: DoneFor(jobs, targets, spec, p) && jobs[p.job].end == from
  {
    var ends := set p | p in targets && DoneFor(jobs, targets, spec, p) :: jobs[p.job].end;
    assert forall p :: DoneFor(jobs, targets, spec, p) ==> jobs[p.job].end in ends;
    Greatest(ends + {start})
  }

  function FreshId(jobs: map<int, Job>): (id: int)
    ensures id !in jobs
  {
    if jobs.Keys == {} then 1 else Greatest(jobs.Keys) + 1
  }

  predicate KeyTaken(jobs: map<int, Job>, key: JobKey) { exists j :: j in jobs && jobs[j].key == key }

  predicate MayAdd(jobs: map<int, Job>, targets: map<Place, Target>, spec: int, instrument: int, start: int, end: int,
                   key: Option<string>) {
    && start < end && !Occupied(jobs, targets, instrument)
    && (if key.Some? then !KeyTaken(jobs, Chosen(key.value))
        else var from := StartFor(jobs, targets, spec, start); from < end && !KeyTaken(jobs, Default(spec, from, end)))
  }

  // ---------------------------------------------------------------- claiming

  predicate Claimable(j: Job, now: int) {
    || j.status == Pending
    || (j.status == RetryWait && (j.nextRetryAt.Some? ==> j.nextRetryAt.value <= now))
    || (j.status in {Leased, Running} && j.expiresAt.Some? && j.expiresAt.value <= now)
  }

  /** ORDER BY priority DESC, created_at, id. */
  predicate Ahead(jobs: map<int, Job>, a: int, b: int)
    requires a in jobs && b in jobs
  {
    jobs[a].priority > jobs[b].priority || (jobs[a].priority == jobs[b].priority &&
      (jobs[a].createdAt < jobs[b].createdAt || (jobs[a].createdAt == jobs[b].createdAt && a <= b)))
  }

  predicate Best(jobs: map<int, Job>, ids: set<int>, a: int)
    requires ids <= jobs.Keys
  {
    a in ids && forall b :: b in ids ==> Ahead(jobs, a, b)
  }

  /** Narrowing to the highest priority, then to the oldest, then to the lowest id. */
  function First(jobs: map<int, Job>, ids: set<int>): (a: int)
    requires ids != {} && ids <= jobs.Keys
    ensures Best(jobs, ids, a)
  {
    var byPriority := Highest(ids, id => if id in jobs then jobs[id].priority else 0);
    var byAge := Highest(byPriority, id => if id in jobs then -jobs[id].createdAt else 0);
    Least(byAge)
  }

  /** The members with the greatest rank. */
  function Highest(ids: set<int>, rank: int -> int): (r: set<int>)
    requires ids != {}
    ensures r != {} && r <= ids
    ensures forall a, b :: a in r && b in ids ==> rank(a) > rank(b) || (rank(a) == rank(b) && b in r)
  {
    assert (forall x :: x !in ids) ==> ids == {};
    var ranks := set id | id in ids :: rank(id);
    assert forall id :: id in ids ==> rank(id) in ranks;
    var top := Greatest(ranks);
    var r := set id | id in ids && rank(id) == top;
    assert r != {} by {
      var id :| id in ids && rank(id) == top;
      assert id in r;
    }
    r
  }

  function NextJob(jobs: map<int, Job>, now: int): (r: Option<int>)
    ensures r == None ==> forall id :: id in jobs ==> !Claimable(jobs[id], now)
    ensures r.Some? ==> r.value in jobs && Claimable(jobs[r.value], now)
    ensures r.Some? ==> forall id :: id in jobs && Claimable(jobs[id], now) ==> Ahead(jobs, r.value, id)
  {
    var ids := set id | id in jobs && Claimable(jobs[id], now);
    assert forall id :: id in jobs && Claimable(jobs[id], now) ==> id in ids;
    if ids == {} then None else
      var a := First(jobs, ids);
      assert Best(jobs, ids, a);
      Some(a)
  }

  function Claimed(j: Job, worker: string, expires: int): Job {
    j.(status := Running, owner := Some(worker), expiresAt := Some(expires), attempts := j.attempts + 1)
  }

  function Exhausted(j: Job): Job { j.(status := DeadLetter, owner := None, expiresAt := None) }

  // ---------------------------------------------------------------- what every step keeps

  /** Targets belong to jobs; a paused job has nothing to run and something held; a cancelled job has neither. */
  ghost predicate JobsAgree(jobs: map<int, Job>, targets: map<Place, Target>) {
    && (forall p :: p in targets ==> p.job in jobs)
    && (forall p :: p in targets && jobs[p.job].status == Paused ==> !Runnable(targets[p]))
    && (forall p :: p in targets && jobs[p.job].status == Cancelled ==> !Open(targets[p]))
    && (forall j :: j in jobs && jobs[j].status == Paused ==> HasHeld(targets, j))
  }

  predicate LiveWork(jobs: map<int, Job>, targets: map<Place, Target>, p: Place) {
    p in targets && Open(targets[p]) && p.job in jobs && Live(jobs[p.job])
  }

  /** Each instrument has work in at most one live job. */
  ghost predicate OneEach(jobs: map<int, Job>, targets: map<Place, Target>) {
    forall p, q :: LiveWork(jobs, targets, p) && LiveWork(jobs, targets, q) && p.instrument == q.instrument ==> p == q
  }

  ghost predicate Consistent(jobs: map<int, Job>, targets: map<Place, Target>) {
    JobsAgree(jobs, targets) && OneEach(jobs, targets)
  }

  /** The targets of other instruments are as they were. */
  ghost predicate OthersKept(targets: map<Place, Target>, targets': map<Place, Target>, instrument: int) {
    && targets'.Keys == targets.Keys
    && (forall p :: p in targets && p.instrument != instrument ==> targets'[p] == targets[p])
  }

  // ---------------------------------------------------------------- taking out keeps them

  /** No new work appears. */
  ghost predicate Shrinks(jobs: map<int, Job>, targets: map<Place, Target>, jobs': map<int, Job>,
                          targets': map<Place, Target>) {
    forall p :: LiveWork(jobs', targets', p) ==> LiveWork(jobs, targets, p)
  }

  lemma ShrinkingKeepsOneEach(jobs: map<int, Job>, targets: map<Place, Target>, jobs': map<int, Job>,
                              targets': map<Place, Target>)
    requires OneEach(jobs, targets) && Shrinks(jobs, targets, jobs', targets')
    ensures OneEach(jobs', targets')
  {}

  lemma TakingOutAgrees(jobs: map<int, Job>, targets: map<Place, Target>, ids: set<int>, instrument: int,
                        to: TargetStatus, clearRetry: bool)
    requires JobsAgree(jobs, targets) && to in {Held, Stopped}
    requires forall j :: j in ids ==> j in jobs && Live(jobs[j])
    ensures var t' := Moved(targets, ids, instrument, to); JobsAgree(Settled(jobs, ids, t', clearRetry), t')
  {
    var t' := Moved(targets, ids, instrument, to);
    var jobs' := Settled(jobs, ids, t', clearRetry);
    forall j | j in jobs' && jobs'[j].status == Paused ensures HasHeld(t', j) {
      if j !in ids {
        var p :| p in targets && p.job == j && targets[p].status == Held;
        assert t'[p] == targets[p];
      }
    }
    forall p | p in t' && jobs'[p.job].status == Cancelled ensures !Open(t'[p]) {
      assert p.job in ids ==> !HasRunnable(t', p.job);
    }
  }

  /** Taking an instrument out of its jobs keeps the table consistent, touches no other instrument, and
      leaves it no work to run in any live job - none at all when the work is stopped. */
  lemma TakenOut(jobs: map<int, Job>, targets: map<Place, Target>, instrument: int, sourceOnly: bool, to: TargetStatus,
                 clearRetry: bool)
    requires Consistent(jobs, targets) && to in {Held, Stopped}
    ensures var ids := Affected(jobs, targets, instrument, sourceOnly);
      var t' := Moved(targets, ids, instrument, to); var jobs' := Settled(jobs, ids, t', clearRetry);
      && Consistent(jobs', t') && OthersKept(targets, t', instrument)
      && (forall p :: LiveWork(jobs', t', p) && p.instrument == instrument && (sourceOnly ==> jobs[p.job].sourceCandle)
           ==> t'[p].status == Held == to)
  {
    var ids := Affected(jobs, targets, instrument, sourceOnly);
    var t' := Moved(targets, ids, instrument, to);
    var jobs' := Settled(jobs, ids, t', clearRetry);
    TakingOutAgrees(jobs, targets, ids, instrument, to, clearRetry);
    assert Shrinks(jobs, targets, jobs', t');
    ShrinkingKeepsOneEach(jobs, targets, jobs', t');
    forall p | LiveWork(jobs', t', p) && p.instrument == instrument && (sourceOnly ==> jobs[p.job].sourceCandle)
      ensures t'[p].status == Held == to
    {
      assert p == Place(p.job, instrument);
      assert p.job in ids;
    }
  }

  // ---------------------------------------------------------------- bringing back keeps them

  lemma BringingBackAgrees(jobs: map<int, Job>, targets: map<Place, Target>, ids: set<int>, instrument: int)
    requires JobsAgree(jobs, targets)
    requires forall j :: j in ids ==>
      Place(j, instrument) in targets && targets[Place(j, instrument)].status == Held && Live(jobs[j])
    ensures var t' := Resumed(targets, ids, instrument); var jobs' := Reopened(jobs, ids, t');
      JobsAgree(jobs', t') && forall j :: j in ids ==> Live(jobs'[j]) && jobs'[j].status != Paused
  {
    var t' := Resumed(targets, ids, instrument);
    var jobs' := Reopened(jobs, ids, t');
    forall j | j in ids ensures HasRunnable(t', j) {
      assert t'[Place(j, instrument)].status == Waiting;
    }
    forall j | j in jobs' && jobs'[j].status == Paused ensures HasHeld(t', j) {
      var p :| p in targets && p.job == j && targets[p].status == Held;
      assert t'[p] == targets[p];
    }
  }

  /** Bringing an instrument back keeps the table consistent, touches no other instrument, and makes its
      held work wait to run in a live job that is not paused. */
  lemma BroughtBack(jobs: map<int, Job>, targets: map<Place, Target>, instrument: int, activeSpecs: set<int>)
    requires Consistent(jobs, targets)
    ensures var ids := Eligible(jobs, targets, instrument, activeSpecs);
      var t' := Resumed(targets, ids, instrument); var jobs' := Reopened(jobs, ids, t');
      && Consistent(jobs', t') && OthersKept(targets, t', instrument)
      && (forall p :: LiveWork(jobs, targets, p) && p.instrument == instrument && Resumable(targets[p], activeSpecs)
           ==> t'[p].status == Waiting && Live(jobs'[p.job]) && jobs'[p.job].status != Paused)
  {
    var ids := Eligible(jobs, targets, instrument, activeSpecs);
    var t' := Resumed(targets, ids, instrument);
    var jobs' := Reopened(jobs, ids, t');
    BringingBackAgrees(jobs, targets, ids, instrument);
    assert Shrinks(jobs, targets, jobs', t');
    ShrinkingKeepsOneEach(jobs, targets, jobs', t');
    forall p | LiveWork(jobs, targets, p) && p.instrument == instrument && Resumable(targets[p], activeSpecs)
      ensures t'[p].status == Waiting && Live(jobs'[p.job]) && jobs'[p.job].status != Paused
    {
      assert p == Place(p.job, instrument);
      assert p.job in ids;
    }
  }

  /** No work is lost: holding an instrument and bringing it back makes every piece of its work in a live job
      wait to run again, in a live job that is not paused. */
  lemma HoldThenResume(jobs: map<int, Job>, targets: map<Place, Target>, instrument: int, activeSpecs: set<int>,
                       p: Place)
    requires Consistent(jobs, targets) && LiveWork(jobs, targets, p) && p.instrument == instrument
    requires targets[p].spec == None || targets[p].spec.value in activeSpecs
    ensures var t1 := Moved(targets, Affected(jobs, targets, instrument, false), instrument, Held);
      var j1 := Settled(jobs, Affected(jobs, targets, instrument, false), t1, false);
      var t2 := Resumed(t1, Eligible(j1, t1, instrument, activeSpecs), instrument);
      var j2 := Reopened(j1, Eligible(j1, t1, instrument, activeSpecs), t2);
      p in t2 && t2[p] == targets[p].(status := Waiting) && p.job in j2 && Live(j2[p.job]) && j2[p.job].status != Paused
  {
    var ids := Affected(jobs, targets, instrument, false);
    var t1 := Moved(targets, ids, instrument, Held);
    var j1 := Settled(jobs, ids, t1, false);
    TakenOut(jobs, targets, instrument, false, Held, false);
    assert p == Place(p.job, instrument) && p.job in ids;
    assert t1[p].status == Held;
    assert HasHeld(t1, p.job);
    BroughtBack(j1, t1, instrument, activeSpecs);
  }

  // ---------------------------------------------------------------- new work and claims keep them

  lemma NewWork(jobs: map<int, Job>, targets: map<Place, Target>, id: int, job: Job, instrument: int, spec: int)
    requires Consistent(jobs, targets) && id !in jobs && job.status == Pending && !Occupied(jobs, targets, instrument)
    ensures Place(id, instrument) !in targets
    ensures Consistent(jobs[id := job], targets[Place(id, instrument) := Target(Waiting, Some(spec))])
  {
    var place := Place(id, instrument);
    var jobs', t' := jobs[id := job], targets[place := Target(Waiting, Some(spec))];
    forall p | LiveWork(jobs, targets, p) ensures p.instrument != instrument {
      assert p == Place(p.job, p.instrument);
    }
    forall j | j in jobs' && jobs'[j].status == Paused ensures HasHeld(t', j) {
      var p :| p in targets && p.job == j && targets[p].status == Held;
      assert t'[p] == targets[p];
    }
    assert forall p :: LiveWork(jobs', t', p) && p != place ==> LiveWork(jobs, targets, p);
  }

  lemma JobChanged(jobs: map<int, Job>, targets: map<Place, Target>, id: int, job: Job)
    requires Consistent(jobs, targets) && id in jobs && Live(jobs[id]) && job.status in {Running, DeadLetter}
    ensures Consistent(jobs[id := job], targets)
  {
    var jobs' := jobs[id := job];
    assert Shrinks(jobs, targets, jobs', targets);
    ShrinkingKeepsOneEach(jobs, targets, jobs', targets);
  }

  // ---------------------------------------------------------------- whole runs

  datatype Table = Table(jobs: map<int, Job>, targets: map<Place, Target>)

  datatype Op =
    | Add(instrument: int, spec: int, job: Job)
    | Withdraw(instrument: int, sourceOnly: bool, to: TargetStatus)
    | Resume(instrument: int, activeSpecs: set<int>)
    | Claim(worker: string, now: int, expires: int)

  function Apply(s: Table, op: Op): Table {
    match op
    case Add(instrument, spec, job) =>
      if Occupied(s.jobs, s.targets, instrument) || job.status != Pending then s else
        var id := FreshId(s.jobs);
        Table(s.jobs[id := job], s.targets[Place(id, instrument) := Target(Waiting, Some(spec))])
    case Withdraw(instrument, sourceOnly, to) =>
      if to !in {Held, Stopped} then s else
        var ids := Affected(s.jobs, s.targets, instrument, sourceOnly);
        var targets := Moved(s.targets, ids, instrument, to);
        Table(Settled(s.jobs, ids, targets, sourceOnly), targets)
    case Resume(instrument, activeSpecs) =>
      var ids := Eligible(s.jobs, s.targets, instrument, activeSpecs);
      var targets := Resumed(s.targets, ids, instrument);
      Table(Reopened(s.jobs, ids, targets), targets)
    case Claim(worker, now, expires) =>
      match NextJob(s.jobs, now)
      case None => s
      case Some(id) =>
        var j := s.jobs[id];
        s.(jobs := s.jobs[id := if j.attempts >= j.maxAttempts then Exhausted(j) else Claimed(j, worker, expires)])
  }

  function Exec(s: Table, ops: seq<Op>): Table
    decreases |ops|
  {
    if ops == [] then s else Apply(Exec(s, ops[..|ops| - 1]), ops[|ops| - 1])
  }

  /** The instrument has the same targets in the same statuses. */
  ghost predicate SameFor(targets: map<Place, Target>, targets': map<Place, Target>, instrument: int) {
    && (forall p: Place :: p.instrument == instrument ==> (p in targets' <==> p in targets))
    && (forall p: Place :: p.instrument == instrument && p in targets && p in targets' ==> targets'[p] == targets[p])
  }

  lemma ApplyKeeps(s: Table, op: Op)
    requires Consistent(s.jobs, s.targets)
    ensures Consistent(Apply(s, op).jobs, Apply(s, op).targets)
  {
    match op {
      case Add(instrument, spec, job) => {
        if !Occupied(s.jobs, s.targets, instrument) && job.status == Pending {
          NewWork(s.jobs, s.targets, FreshId(s.jobs), job, instrument, spec);
        }
      }
      case Withdraw(instrument, sourceOnly, to) => {
        if to in {Held, Stopped} { TakenOut(s.jobs, s.targets, instrument, sourceOnly, to, sourceOnly); }
      }
      case Resume(instrument, activeSpecs) => { BroughtBack(s.jobs, s.targets, instrument, activeSpecs); }
      case Claim(worker, now, expires) => {
        var next := NextJob(s.jobs, now);
        if next.Some? {
          var j := s.jobs[next.value];
          JobChanged(s.jobs, s.targets, next.value, if j.attempts >= j.maxAttempts then Exhausted(j)
                                                    else Claimed(j, worker, expires));
        }
      }
    }
  }

  /** Whatever is ensured, superseded, held, excluded, resumed and claimed, in whatever order, jobs and targets
      stay consistent, and an instrument's targets change only by steps that name it. */
  lemma {:induction false} EveryRunConsistent(s: Table, ops: seq<Op>, instrument: int)
    requires Consistent(s.jobs, s.targets)
    ensures Consistent(Exec(s, ops).jobs, Exec(s, ops).targets)
    ensures (forall i :: 0 <= i < |ops| ==> ops[i].Claim? || ops[i].instrument != instrument)
            ==> SameFor(s.targets, Exec(s, ops).targets, instrument)
    decreases |ops|
  {
    if ops != [] {
      EveryRunConsistent(s, ops[..|ops| - 1], instrument);
      ApplyKeeps(Exec(s, ops[..|ops| - 1]), ops[|ops| - 1]);
      var last := ops[|ops| - 1];
      if last.Claim? || last.instrument != instrument { OthersUntouched(Exec(s, ops[..|ops| - 1]), last, instrument); }
    }
  }

  lemma OthersUntouched(s: Table, op: Op, instrument: int)
    requires op.Claim? || op.instrument != instrument
    ensures SameFor(s.targets, Apply(s, op).targets, instrument)
  {}

  // ---------------------------------------------------------------- the store

  lemma MovedSame(targets: map<Place, Target>, a: set<int>, b: set<int>, instrument: int, to: TargetStatus, job: int)
    requires job in a <==> job in b
    ensures HasRunnable(Moved(targets, a, instrument, to), job) == HasRunnable(Moved(targets, b, instrument, to), job)
    ensures HasHeld(Moved(targets, a, instrument, to), job) == HasHeld(Moved(targets, b, instrument, to), job)
  {
    var x, y := Moved(targets, a, instrument, to), Moved(targets, b, instrument, to);
    assert forall p :: p in targets && p.job == job ==> x[p] == y[p];
    assert x.Keys == y.Keys == targets.Keys;
  }

  /** Settling one more job leaves the others as they were settled. */
  lemma SettleOneMore(jobs: map<int, Job>, targets: map<Place, Target>, seen: set<int>, j: int, instrument: int,
                      to: TargetStatus)
    requires j in jobs && j !in seen
    ensures var t := Moved(targets, seen, instrument, to); var t' := Moved(targets, seen + {j}, instrument, to);
      && t' == Moved(t, {j}, instrument, to)
      && Settled(jobs, seen + {j}, t', true) == Settled(jobs, seen, t, true)[j := SettledJob(jobs[j], j, t', true)]
  {
    var t, t' := Moved(targets, seen, instrument, to), Moved(targets, seen + {j}, instrument, to);
    forall id | id in jobs && id in seen
      ensures SettledJob(jobs[id], id, t', true) == SettledJob(jobs[id], id, t, true)
    {
      MovedSame(targets, seen, seen + {j}, instrument, to, id);
    }
  }

  class BackfillStore {
    var jobs: map<int, Job>
    var targets: map<Place, Target>

    ghost predicate Valid()
      reads this
    {
      Consistent(jobs, targets)
    }

    constructor ()
      ensures Valid() && jobs == map[] && targets == map[]
    {
      jobs, targets := map[], map[];
    }

    /** At most one job is created, and only when no live job has or is planned to have work for the instrument. */
    method EnsureBackfillJob(spec: int, instrument: int, start: int, end: int, priority: int, key: Option<string>,
                             now: int, maxAttempts: nat)
      returns (created: bool)
      requires Valid()
      modifies this
      ensures Valid()
      ensures !created ==> jobs == old(jobs) && targets == old(targets)
      ensures created == MayAdd(old(jobs), old(targets), spec, instrument, start, end, key)
      ensures created ==> var id := FreshId(old(jobs));
        && jobs.Keys == old(jobs.Keys) + {id}
        && targets == old(targets)[Place(id, instrument) := Target(Waiting, Some(spec))]
        && (forall j :: j in old(jobs) ==> jobs[j] == old(jobs[j]))
        && (var from := if key.Some? then start else StartFor(old(jobs), old(targets), spec, start);
            var jobKey := if key.Some? then Chosen(key.value) else Default(spec, from, end);
            jobs[id] == Job(Pending, true, {instrument}, from, end, priority, now, jobKey, 0, maxAttempts, None, None,
                            None))
    {
      if start >= end || Occupied(jobs, targets, instrument) { return false; }
      var from := start;
      var jobKey: JobKey;
      if key.Some? {
        jobKey := Chosen(key.value);
      } else {
        from := StartFor(jobs, targets, spec, start);
        if from >= end { return false; }
        jobKey := Default(spec, from, end);
      }
      if KeyTaken(jobs, jobKey) { return false; }
      var id := FreshId(jobs);
      var job := Job(Pending, true, {instrument}, from, end, priority, now, jobKey, 0, maxAttempts, None, None, None);
      NewWork(jobs, targets, id, job, instrument, spec);
      jobs := jobs[id := job];
      targets := targets[Place(id, instrument) := Target(Waiting, Some(spec))];
      created := true;
    }

    /** Job by job, the instrument's open work on source candles is stopped. */
    method CancelSupersededSourceBackfill(instrument: int)
      requires Valid()
      modifies this
      ensures Valid() && OthersKept(old(targets), targets, instrument)
      ensures var ids := Affected(old(jobs), old(targets), instrument, true);
        targets == Moved(old(targets), ids, instrument, Stopped) && jobs == Settled(old(jobs), ids, targets, true)
    {
      var ids := Affected(jobs, targets, instrument, true);
      var rows := ids;
      while rows != {}
        invariant rows <= ids
        invariant targets == Moved(old(targets), ids - rows, instrument, Stopped)
        invariant jobs == Settled(old(jobs), ids - rows, targets, true)
        decreases rows
      {
        assert (forall x :: x !in rows) ==> rows == {};
        var j := Least(rows);
        SettleOneMore(old(jobs), old(targets), ids - rows, j, instrument, Stopped);
        assert ids - (rows - {j}) == (ids - rows) + {j};
        targets := Moved(targets, {j}, instrument, Stopped);
        jobs := jobs[j := SettledJob(jobs[j], j, targets, true)];
        rows := rows - {j};
      }
      assert ids - rows == ids;
      TakenOut(old(jobs), old(targets), instrument, true, Stopped, true);
    }

    method TransitionMarketBackfillWork(instrument: int, state: State, activeSpecs: set<int>)
      requires Valid()
      modifies this
      ensures Valid() && OthersKept(old(targets), targets, instrument)
      ensures state == Active ==> var ids := Eligible(old(jobs), old(targets), instrument, activeSpecs);
        targets == Resumed(old(targets), ids, instrument) && jobs == Reopened(old(jobs), ids, targets)
      ensures state != Active ==> var ids := Affected(old(jobs), old(targets), instrument, false);
        targets == Moved(old(targets), ids, instrument, if state == OnHold then Held else Stopped)
        && jobs == Settled(old(jobs), ids, targets, false)
    {
      if state == Active {
        BroughtBack(jobs, targets, instrument, activeSpecs);
        var ids := Eligible(jobs, targets, instrument, activeSpecs);
        targets := Resumed(targets, ids, instrument);
        jobs := Reopened(jobs, ids, targets);
      } else {
        var to := if state == OnHold then Held else Stopped;
        TakenOut(jobs, targets, instrument, false, to, false);
        var ids := Affected(jobs, targets, instrument, false);
        targets := Moved(targets, ids, instrument, to);
        jobs := Settled(jobs, ids, targets, false);
      }
    }

    /** The claimed job is the first in the queue's order; a job out of attempts is given up instead. */
    method ClaimBackfillJob(worker: string, now: int, leaseSeconds: int, gateOpen: bool) returns (claimed: Option<int>)
      requires Valid()
      modifies this
      ensures Valid() && targets == old(targets)
      ensures var next := NextJob(old(jobs), now);
        if worker == "" || leaseSeconds < 1 || !gateOpen || next == None then claimed == None && jobs == old(jobs)
        else if old(jobs)[next.value].attempts >= old(jobs)[next.value].maxAttempts
        then && claimed == None
             && jobs == old(jobs)[next.value := old(jobs)[next.value].(status := DeadLetter, owner := None,
                                                                       expiresAt := None)]
        else && claimed == next
             && (var job := old(jobs)[next.value];
                 jobs == old(jobs)[next.value := job.(status := Running, owner := Some(worker),
                                                      expiresAt := Some(now + leaseSeconds),
                                                      attempts := job.attempts + 1)])
    {
      if worker == "" || leaseSeconds < 1 || !gateOpen { return None; }
      var next := NextJob(jobs, now);
      if next == None { return None; }
      var id := next.value;
      if jobs[id].attempts >= jobs[id].maxAttempts {
        JobChanged(jobs, targets, id, Exhausted(jobs[id]));
        jobs := jobs[id := Exhausted(jobs[id])];
        return None;
      }
      var job := Claimed(jobs[id], worker, now + leaseSeconds);
      JobChanged(jobs, targets, id, job);
      jobs := jobs[id := job];
      claimed := next;
    }
  }
}
