/** Progress: whatever the API answers, a reconcile only moves an object towards a settled state, and it moves
    it exactly when nothing holds it up. */
module Progress {
  import opened Types
  import opened Conditions
  import opened Decision
  import opened Protocol
  import opened StoreSafety
  import opened StatusSafety
  import opened Atomic
  import opened OwnJobs
  import History

  // ---------- The rank ----------

  /** The status says about this generation how its migration ended. */
  ghost predicate Settled(o: DBUpgrade, j: Job) {
    && o.status.observedGeneration == o.generation
    && (if IsSucceeded(j) then IsTrue(o.status.conditions, Ready)
        else IsFailed(j) && SaysJobFailed(o.status.conditions))
  }

  ghost predicate SaysJobFailed(conditions: seq<Condition>) {
    exists c :: c in conditions && c.kind == Ready && c.reason == JobFailed
  }

  /** How far an object is from a settled state: its Job is for another spec, there is none, it is
      unfinished, or how it ended is not reported yet. */
  ghost function RankOf(p: Params, o: DBUpgrade, job: Option<Job>): (rank: nat)
    ensures rank <= 4
  {
    if job.None? then 3
    else if job.value.name != ExpectedName(p, o) then 4
    else if !IsFinished(job.value) then 2
    else if !Settled(o, job.value) then 1
    else 0
  }

  ghost function Rank(p: Params, w: World, n: string): nat
    requires n in w.objects
  {
    RankOf(p, w.objects[n], OwnJob(w.jobs, w.objects[n].uid))
  }

  /** Nothing holds this reconcile up: neither the API, nor the Job, nor the clock, nor a check, nor a
      foreign Job with the name that is needed. */
  ghost predicate Advances(p: Params, o: DBUpgrade, jobs: map<string, Job>, job: Option<Job>, now: Time, a: Answers) {
    && ReachesJobs(o.spec, a)
    && match job {
         case None => PreGatesOpen(p, o.spec, a) && a.created.TakesEffect() && ExpectedName(p, o) !in jobs
         case Some(j) =>
           if j.name != ExpectedName(p, o) then !IsRunning(j) && a.deleted.TakesEffect()
           else if IsSucceeded(j) then
             PostGatesOpen(p, o.spec, CompletedAt(o, j, now), now, a) && a.written.TakesEffect()
           else IsFailed(j) && a.written.TakesEffect()
       }
  }

  // ---------- One reconcile ----------

  /** What a written status says about the end of the migration. */
  lemma WrittenSays(o: DBUpgrade, r: ReconcileResult, now: Time)
    requires StatusOk(o)
    ensures
      var s := NewStatus(o, r, now);
      && s.observedGeneration == o.generation
      && (IsTrue(s.conditions, Ready) <==> r.ready)
      && (SaysJobFailed(s.conditions) <==> r.readyReason == JobFailed)
  {
    hide WithCondition;
    var readied := WithCondition(o.status.conditions, Ready, r.ready, r.readyReason, o.generation, now);
    SetConditionMeaning(o.status.conditions, Ready, r.ready, r.readyReason, o.generation, now);
    SetConditionMeaning(readied, Progressing, r.progressing, r.progressReason, o.generation, now);
    var s := NewStatus(o, r, now);
    assert forall c: Condition | c.kind == Ready :: c in s.conditions <==> c in readied;
  }

  /** The result of reconciling an object with a finished Job for its spec. */
  lemma FinishedResult(p: Params, o: DBUpgrade, jobs: map<string, Job>, j: Job, now: Time, a: Answers)
    requires j.name == ExpectedName(p, o) && IsFinished(j)
    ensures
      var r := OutcomeOf(p, o, jobs, Some(j), now, a).result;
      if IsSucceeded(j) then
        r.ready <==> ReachesJobs(o.spec, a) && PostGatesOpen(p, o.spec, CompletedAt(o, j, now), now, a)
      else r.readyReason == JobFailed <==> ReachesJobs(o.spec, a)
  {
    hide ExpectedName, PostGatesOpen, IsSucceeded, IsFailed;
    if ReachesJobs(o.spec, a) {
      hide EarlyResult;
      assert OutcomeOf(p, o, jobs, Some(j), now, a).result == SyncResult(p, o, j, now, a);
      hide OutcomeOf, OutcomeWithJob;
      History.ReadyMeansPassed(p, o, j, now, a);
      hide PostChecksResult;
    }
  }

  /** Reconciling once, in terms of what was there and what is there afterwards. */
  lemma RankAfter(p: Params, w: World, o: DBUpgrade, job: Option<Job>, r: ReconcileResult, a: Answers)
    requires StatusOk(o)
    requires job.Some? && job.value.name == ExpectedName(p, o) && IsFinished(job.value) ==>
      r == OutcomeOf(p, o, w.jobs, job, w.now, a).result
    ensures
      var before, after := RankOf(p, o, job), RankOf(p, Written(w, o, r, a), NextJob(p, o, w.jobs, job, a));
      && (before > 0 ==> after <= before && (after < before <==> Advances(p, o, w.jobs, job, w.now, a)))
      && (before == 0 && a.written.TakesEffect() ==> (after == 0 <==> Advances(p, o, w.jobs, job, w.now, a)))
      && (before == 0 && !a.written.TakesEffect() ==> after == 0)
      && (before == 0 ==> after <= 1)
  {
    hide PreGatesOpen, PostGatesOpen, PreChecksResult, ReachesJobs, OutcomeOf, IsRunning, IsTrue, SaysJobFailed,
         NewStatus, StatusOk, JobName;
    WrittenSays(o, r, w.now);
    if job.None? {
      PreChecksMeaning(p, o.spec, a);
      NewJobIsUnfinished(p, o);
    } else if job.value.name == ExpectedName(p, o) && IsFinished(job.value) {
      hide IsSucceeded, IsFailed;
      FinishedResult(p, o, w.jobs, job.value, w.now, a);
    } else {
      hide IsSucceeded, IsFailed;
    }
  }

  lemma NewJobIsUnfinished(p: Params, o: DBUpgrade)
    ensures !IsFinished(NewJob(p, o))
  {
  }

  /** The rank falls exactly when nothing holds the reconcile up, and never rises but by leaving a settled
      state, exactly when the post-checks, made again, do not pass. */
  lemma RankFalls(p: Params, w: World, n: string, a: Answers, items: seq<Job>)
    requires StoreInv(w) && StatusInv(w)
    requires n in w.objects && n !in w.flights && Lists(items, w.jobs)
    ensures n in Run(p, w, Script(n, a, items)).objects
    ensures
      var o := w.objects[n];
      var v := Run(p, w, Script(n, a, items));
      var advances := Advances(p, o, w.jobs, OwnJob(w.jobs, o.uid), w.now, a);
      && (Rank(p, w, n) > 0 ==> Rank(p, v, n) <= Rank(p, w, n) && (Rank(p, v, n) < Rank(p, w, n) <==> advances))
      && (Rank(p, w, n) == 0 && a.written.TakesEffect() ==> (Rank(p, v, n) == 0 <==> advances))
      && (Rank(p, w, n) == 0 && !a.written.TakesEffect() ==> Rank(p, v, n) == 0)
      && (Rank(p, w, n) == 0 ==> Rank(p, v, n) <= 1)
  {
    hide Run, Script, Lists, FirstOwned, OutcomeOf, RankOf, Advances, NextJob, OwnJob, NewStatus, FlightsOk,
         StatusOk, Written;
    ReconcileIsAtomic(p, w, n, a, items);
    var o := w.objects[n];
    var job := OwnJob(w.jobs, o.uid);
    FoundIsOwn(w, items, o.uid);
    NextJobIsOwn(p, w, o, items, a);
    RankAfter(p, w, o, job, OutcomeOf(p, o, w.jobs, job, w.now, a).result, a);
    WrittenIsSame(w, o, OutcomeOf(p, o, w.jobs, job, w.now, a).result, a);
  }

  lemma WrittenIsSame(w: World, o: DBUpgrade, r: ReconcileResult, a: Answers)
    ensures Written(w, o, r, a).uid == o.uid
  {
  }

  /** The object has a Job for its spec that is complete or failed, and its status says so about the
      generation that it has. */
  ghost predicate IsSettled(p: Params, w: World, n: string) {
    n in w.objects &&
    var o := w.objects[n];
    var job := OwnJob(w.jobs, o.uid);
    job.Some? && job.value.name == ExpectedName(p, o) && Settled(o, job.value)
  }

  lemma SettledIsRankZero(p: Params, w: World, n: string)
    requires n in w.objects
    ensures IsSettled(p, w, n) <==> Rank(p, w, n) == 0
  {
    hide OwnJob, ExpectedName, IsSucceeded, IsFailed;
  }
}
