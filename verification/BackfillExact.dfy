/** The backfill store's steps, row by row: which jobs are claimed and in what order, when work is added, and what
    taking an instrument out or bringing it back leaves of each target and job. */
module BackfillExact {
  import opened Ordering
  import opened BackfillWork

  /** The job is over. */
  predicate Over(j: Job) { j.status in {Cancelled, DeadLetter, Succeeded, Failed} }

  /** There is still work to do for the target. */
  predicate Unfinished(t: Target) { t.status !in {Stopped, Finished, Broken} }

  lemma NotOver(j: Job)
    ensures Live(j) <==> !Over(j)
  {
    match j.status {
      case Planned => {} case Pending => {} case Leased => {} case Running => {} case RetryWait => {}
      case Paused => {} case Cancelled => {} case DeadLetter => {} case Succeeded => {} case Failed => {}
    }
  }

  lemma NotFinished(t: Target)
    ensures Open(t) <==> Unfinished(t)
  {
    match t.status {
      case Waiting => {} case Working => {} case Held => {} case Stopped => {} case Finished => {} case Broken => {}
    }
  }

  // ---------------------------------------------------------------- claims

  /** The job may be taken at `now`: it is neither over, planned nor paused, and it waits neither for a retry time nor
      for another worker's lease. */
  predicate Free(j: Job, now: int) {
    && !Over(j) && j.status != Planned && j.status != Paused
    && (j.status == RetryWait && j.nextRetryAt.Some? ==> j.nextRetryAt.value <= now)
    && (j.status in {Leased, Running} ==> j.expiresAt.Some? && j.expiresAt.value <= now)
  }

  /** The next job is the free one with the highest priority; then the oldest; then the one with the lowest id. */
  lemma NextIsFirst(jobs: map<int, Job>, now: int)
    ensures match NextJob(jobs, now)
      case None => forall b :: b in jobs ==> !Free(jobs[b], now)
      case Some(a) =>
        && a in jobs && Free(jobs[a], now)
        && forall b :: b in jobs && Free(jobs[b], now) ==>
             && jobs[b].priority <= jobs[a].priority
             && (jobs[b].priority == jobs[a].priority ==> jobs[a].createdAt <= jobs[b].createdAt)
             && (jobs[b].priority == jobs[a].priority && jobs[a].createdAt == jobs[b].createdAt ==> a <= b)
  {
    forall b | b in jobs ensures Free(jobs[b], now) <==> Claimable(jobs[b], now) {}
    var next := NextJob(jobs, now);
    if next.Some? {
      forall b | b in jobs && Free(jobs[b], now) ensures Ahead(jobs, next.value, b) {}
    }
  }

  // ---------------------------------------------------------------- new work

  /** A job that is not over has unfinished work for the instrument, or was planned for it and has no target at all. */
  ghost predicate Busy(jobs: map<int, Job>, targets: map<Place, Target>, instrument: int) {
    exists j :: j in jobs && !Over(jobs[j]) &&
      if exists p :: p in targets && p.job == j
      then Place(j, instrument) in targets && Unfinished(targets[Place(j, instrument)])
      else instrument in jobs[j].plan
  }

  /** Work is added exactly when the span is not empty - for a default key after what is already done -, the instrument
      is not busy and no job has the key. */
  lemma AddedIff(jobs: map<int, Job>, targets: map<Place, Target>, spec: int, instrument: int, start: int, end: int,
                 key: Option<string>)
    ensures MayAdd(jobs, targets, spec, instrument, start, end, key) <==>
      var from := if key.Some? then start else StartFor(jobs, targets, spec, start);
      var jobKey := if key.Some? then Chosen(key.value) else Default(spec, from, end);
      from < end && !Busy(jobs, targets, instrument) && forall j :: j in jobs ==> jobs[j].key != jobKey
  {
    BusyIs(jobs, targets, instrument);
  }

  lemma BusyIs(jobs: map<int, Job>, targets: map<Place, Target>, instrument: int)
    ensures Busy(jobs, targets, instrument) <==> Occupied(jobs, targets, instrument)
  {
    forall j | j in jobs ensures Live(jobs[j]) <==> !Over(jobs[j]) { NotOver(jobs[j]); }
    forall p | p in targets ensures Open(targets[p]) <==> Unfinished(targets[p]) { NotFinished(targets[p]); }
    if Occupied(jobs, targets, instrument) {
      var j :| j in jobs && Live(jobs[j]) &&
        ((Place(j, instrument) in targets && Open(targets[Place(j, instrument)]))
         || ((forall p :: p in targets ==> p.job != j) && instrument in jobs[j].plan));
      assert Place(j, instrument) in targets ==> Place(j, instrument).job == j;
      assert !Over(jobs[j]);
    }
    if Busy(jobs, targets, instrument) {
      var j :| j in jobs && !Over(jobs[j]) &&
        if exists p :: p in targets && p.job == j
        then Place(j, instrument) in targets && Unfinished(targets[Place(j, instrument)])
        else instrument in jobs[j].plan;
      assert Live(jobs[j]);
    }
  }

  // ---------------------------------------------------------------- taking out and bringing back

  /** The target is one of the instrument's, has work to do, and belongs to a job that is not over. */
  predicate Caught(jobs: map<int, Job>, targets: map<Place, Target>, instrument: int, sourceOnly: bool, p: Place) {
    && p.instrument == instrument && p in targets && Unfinished(targets[p]) && p.job in jobs && !Over(jobs[p.job])
    && (sourceOnly ==> jobs[p.job].sourceCandle)
  }

  ghost predicate SomeWith(targets: map<Place, Target>, job: int, statuses: set<TargetStatus>) {
    exists p :: p in targets && p.job == job && targets[p].status in statuses
  }

  /** Taking out changes exactly the caught targets; a job that had one and has nothing left to run is paused if
      something is held, and cancelled otherwise, and its lease is dropped. Nothing else changes. */
  lemma TakenOutExactly(jobs: map<int, Job>, targets: map<Place, Target>, instrument: int, sourceOnly: bool,
                        to: TargetStatus, clearRetry: bool)
    ensures var ids := Affected(jobs, targets, instrument, sourceOnly);
      var t' := Moved(targets, ids, instrument, to); var jobs' := Settled(jobs, ids, t', clearRetry);
      && t'.Keys == targets.Keys && jobs'.Keys == jobs.Keys
      && (forall p :: p in targets ==>
           t'[p] == if Caught(jobs, targets, instrument, sourceOnly, p) then Target(to, targets[p].spec)
                    else targets[p])
      && (forall j :: j in jobs ==>
           jobs'[j] == if Caught(jobs, targets, instrument, sourceOnly, Place(j, instrument))
                          && !SomeWith(t', j, {Waiting, Working})
                       then jobs[j].(status := if SomeWith(t', j, {Held}) then Paused else Cancelled, owner := None,
                                     expiresAt := None, nextRetryAt := if clearRetry then None else jobs[j].nextRetryAt)
                       else jobs[j])
  {
    var ids := Affected(jobs, targets, instrument, sourceOnly);
    forall p | p in targets && p.instrument == instrument && Unfinished(targets[p])
      ensures Caught(jobs, targets, instrument, sourceOnly, p) <==> p.job in ids
    {
      assert p == Place(p.job, instrument);
      NotFinished(targets[p]);
      if p.job in jobs { NotOver(jobs[p.job]); }
    }
  }

  /** The target is one of the instrument's, is held in a job that is not over, and its specification is active. */
  predicate Returns(jobs: map<int, Job>, targets: map<Place, Target>, instrument: int, activeSpecs: set<int>,
                    p: Place) {
    && p.instrument == instrument && p in targets && targets[p].status == Held && p.job in jobs && !Over(jobs[p.job])
    && (targets[p].spec.Some? ==> targets[p].spec.value in activeSpecs)
  }

  /** Bringing back changes exactly the targets that return, and makes the paused jobs that had one wait for a worker.
      Nothing else changes. */
  lemma BroughtBackExactly(jobs: map<int, Job>, targets: map<Place, Target>, instrument: int, activeSpecs: set<int>)
    ensures var ids := Eligible(jobs, targets, instrument, activeSpecs);
      var t' := Resumed(targets, ids, instrument); var jobs' := Reopened(jobs, ids, t');
      && t'.Keys == targets.Keys && jobs'.Keys == jobs.Keys
      && (forall p :: p in targets ==>
           t'[p] == if Returns(jobs, targets, instrument, activeSpecs, p) then Target(Waiting, targets[p].spec)
                    else targets[p])
      && (forall j :: j in jobs ==>
           jobs'[j] == if Returns(jobs, targets, instrument, activeSpecs, Place(j, instrument))
                          && jobs[j].status == Paused
                       then jobs[j].(status := Pending, owner := None, expiresAt := None)
                       else jobs[j])
  {
    var ids := Eligible(jobs, targets, instrument, activeSpecs);
    var t' := Resumed(targets, ids, instrument);
    forall p | p in targets && p.instrument == instrument
      ensures Returns(jobs, targets, instrument, activeSpecs, p) <==> p.job in ids
    {
      assert p == Place(p.job, instrument);
      if p.job in jobs { NotOver(jobs[p.job]); }
    }
    forall j | j in ids ensures HasRunnable(t', j) {
      assert t'[Place(j, instrument)].status == Waiting;
    }
  }
}
