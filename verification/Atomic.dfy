/** A reconcile without interference, in one piece. */
module Atomic {
  import opened Types
  import opened Decision
  import opened Protocol

  /** What one reconcile of an object makes of the Jobs, and what it is going to write. */
  datatype Outcome = Outcome(jobs: map<string, Job>, result: ReconcileResult)

  /** reconcileDBUpgrade, from the object as it was read and the Job that was found for it. */
  ghost function OutcomeOf(p: Params, o: DBUpgrade, jobs: map<string, Job>,
                           found: Option<Job>, now: Time, a: Answers): Outcome
  {
    var early := EarlyResult(o.spec, a);
    if early.Some? then Outcome(jobs, early.value)
    else if !a.listed then Outcome(jobs, Stopped(Initializing, 5))
    else if found.None? then OutcomeWithoutJob(p, o, jobs, a)
    else OutcomeWithJob(p, o, jobs, found.value, now, a)
  }

  ghost function OutcomeWithoutJob(p: Params, o: DBUpgrade, jobs: map<string, Job>, a: Answers): Outcome {
    var pre := PreChecksResult(p, o.spec, a);
    if !pre.ready then Outcome(jobs, pre)
    else
      var job := NewJob(p, o);
      var seconds := if job.name in jobs then 2 else 5;
      var r := if a.created.Answered? then InProgress(Initializing, JobPending, seconds) else Stopped(JobFailed, 30);
      Outcome(if a.created.TakesEffect() && job.name !in jobs then jobs[job.name := job] else jobs, r)
  }

  ghost function OutcomeWithJob(p: Params, o: DBUpgrade, jobs: map<string, Job>,
                                job: Job, now: Time, a: Answers): Outcome
  {
    if job.name == ExpectedName(p, o) then Outcome(jobs, SyncResult(p, o, job, now, a))
    else if IsRunning(job) then Outcome(jobs, InProgress(Initializing, MigrationInProgress, 10))
    else
      Outcome(if a.deleted.TakesEffect() then jobs - {job.name} else jobs,
              Stopped(Initializing, if a.deleted.Answered? then 2 else 5))
  }

  /** The object after the status write. */
  function Written(w: World, o: DBUpgrade, r: ReconcileResult, a: Answers): DBUpgrade {
    if a.written.TakesEffect() then o.(status := NewStatus(o, r, w.now), resourceVersion := w.nextVersion) else o
  }

  /** The steps of a whole reconcile, one after the other. */
  ghost function Whole(p: Params, w: World, n: string, a: Answers, items: seq<Job>): World {
    Step(p, Step(p, Step(p, Step(p, Step(p, w, Fetch(n)), Look(n, a, items)), Act(n, a)), Create(n, a)), Write(n, a))
  }

  lemma ScriptIsWhole(p: Params, w: World, n: string, a: Answers, items: seq<Job>)
    ensures Run(p, w, Script(n, a, items)) == Whole(p, w, n, a, items)
  {
    hide Step;
    var w1 := Step(p, w, Fetch(n));
    var w2 := Step(p, w1, Look(n, a, items));
    var w3 := Step(p, w2, Act(n, a));
    var w4 := Step(p, w3, Create(n, a));
    var s := Script(n, a, items);
    assert s[1..] == [Look(n, a, items), Act(n, a), Create(n, a), Write(n, a)];
    assert s[1..][1..] == [Act(n, a), Create(n, a), Write(n, a)];
    assert s[1..][1..][1..] == [Create(n, a), Write(n, a)];
    assert s[1..][1..][1..][1..] == [Write(n, a)];
    assert s[1..][1..][1..][1..][1..] == [];
    assert Run(p, w, s) == Run(p, w1, s[1..]) == Run(p, w2, s[1..][1..]);
    assert Run(p, w2, s[1..][1..]) == Run(p, w3, s[1..][1..][1..]) == Run(p, w4, s[1..][1..][1..][1..]);
    assert Run(p, w4, [Write(n, a)]) == Run(p, Step(p, w4, Write(n, a)), []);
  }

  /** Acting and creating, without a Job. */
  lemma WithoutJob(p: Params, w: World, n: string, o: DBUpgrade, a: Answers)
    requires n in w.flights && w.flights[n] == Found(o, None)
    ensures
      var out := OutcomeWithoutJob(p, o, w.jobs, a);
      var v := CreateJobStep(p, ActStep(p, w, n, a), n, a);
      v == w.(jobs := out.jobs, flights := w.flights[n := Done(o, out.result)], log := v.log)
  {
    hide PreChecksResult, SyncResult, ExpectedName, Stopped, InProgress;
    if PreChecksResult(p, o.spec, a).ready {
      assert ActStep(p, w, n, a) == w.(flights := w.flights[n := Cleared(o, a)]);
    }
  }

  /** Acting and creating, with a Job: there is nothing left to create. */
  lemma WithJob(p: Params, w: World, n: string, o: DBUpgrade, job: Job, a: Answers)
    requires n in w.flights && w.flights[n] == Found(o, Some(job))
    ensures
      var out := OutcomeWithJob(p, o, w.jobs, job, w.now, a);
      var v := CreateJobStep(p, ActStep(p, w, n, a), n, a);
      v == w.(jobs := out.jobs, flights := w.flights[n := Done(o, out.result)], log := v.log)
  {
    hide CreateJobStep, OutcomeWithJob;
    ActWithJob(p, w, n, o, job, a);
    NothingToCreate(p, ActStep(p, w, n, a), n, a);
  }

  lemma ActWithJob(p: Params, w: World, n: string, o: DBUpgrade, job: Job, a: Answers)
    requires n in w.flights && w.flights[n] == Found(o, Some(job))
    ensures
      var out := OutcomeWithJob(p, o, w.jobs, job, w.now, a);
      var v := ActStep(p, w, n, a);
      v == w.(jobs := out.jobs, flights := w.flights[n := Done(o, out.result)], log := v.log)
  {
    hide SyncResult, ExpectedName, Stopped, InProgress, IsRunning;
  }

  lemma NothingToCreate(p: Params, w: World, n: string, a: Answers)
    requires n in w.flights && w.flights[n].Done?
    ensures CreateJobStep(p, w, n, a) == w
  {
  }

  /** The steps that decide, from the object as it was fetched. */
  lemma StepsDecide(p: Params, w: World, n: string, a: Answers, items: seq<Job>)
    requires n in w.flights && w.flights[n].Fetched? && Lists(items, w.jobs)
    ensures
      var o := w.flights[n].o;
      var out := OutcomeOf(p, o, w.jobs, FirstOwned(items, o.uid), w.now, a);
      var v := CreateJobStep(p, ActStep(p, LookStep(p, w, n, a, items), n, a), n, a);
      v == w.(jobs := out.jobs, flights := w.flights[n := Done(o, out.result)], log := v.log)
  {
    hide Lists, FirstOwned, EarlyResult, PreChecksResult, Stopped, OutcomeWithJob, OutcomeWithoutJob, DeleteJobStep,
         NewJob;
    var o := w.flights[n].o;
    var found := FirstOwned(items, o.uid);
    var w2 := LookStep(p, w, n, a, items);
    if EarlyResult(o.spec, a).None? && a.listed {
      assert w2 == w.(flights := w.flights[n := Found(o, found)]);
      if found.None? {
        WithoutJob(p, w2, n, o, a);
      } else {
        WithJob(p, w2, n, o, found.value, a);
      }
    } else {
      hide ActStep, CreateJobStep;
      AlreadyDone(p, w2, n, a);
    }
  }

  lemma AlreadyDone(p: Params, w: World, n: string, a: Answers)
    requires n in w.flights && w.flights[n].Done?
    ensures CreateJobStep(p, ActStep(p, w, n, a), n, a) == w
  {
  }

  /** Writing the status of an object that nobody has changed since it was read. */
  lemma WriteEnds(w: World, n: string, o: DBUpgrade, r: ReconcileResult, a: Answers)
    requires n in w.flights && w.flights[n] == Done(o, r) && n in w.objects && w.objects[n] == o
    ensures
      var v := WriteStep(w, n, a);
      v == w.(flights := w.flights - {n},
              objects := w.objects[n := Written(w, o, r, a)],
              nextVersion := if a.written.TakesEffect() then w.nextVersion + 1 else w.nextVersion,
              log := if a.written.TakesEffect() then w.log + [Landed(o, r)] else w.log)
  {
    hide NewStatus;
    assert !a.written.TakesEffect() ==> w.objects[n := o] == w.objects;
  }

  lemma WholeUnfolds(p: Params, w: World, n: string, a: Answers, items: seq<Job>)
    ensures Whole(p, w, n, a, items) ==
            WriteStep(CreateJobStep(p, ActStep(p, LookStep(p, FetchStep(w, n), n, a, items), n, a), n, a), n, a)
  {
    hide FetchStep, LookStep, ActStep, CreateJobStep, WriteStep, CreateStep, UpdateStep, CollectStep,
         ForeignCreateStep, ForeignDeleteStep, RunJobStep;
  }

  /** The interleavable steps of a reconcile, taken together, are the atomic reconcile: its Jobs are those of
      the outcome, its status is the one written, and nothing else moves. */
  lemma ReconcileIsAtomic(p: Params, w: World, n: string, a: Answers, items: seq<Job>)
    requires n in w.objects && n !in w.flights && Lists(items, w.jobs)
    ensures
      var o := w.objects[n];
      var out := OutcomeOf(p, o, w.jobs, FirstOwned(items, o.uid), w.now, a);
      var v := Run(p, w, Script(n, a, items));
      v == w.(jobs := out.jobs,
              objects := w.objects[n := Written(w, o, out.result, a)],
              nextVersion := if a.written.TakesEffect() then w.nextVersion + 1 else w.nextVersion,
              log := v.log)
      && (a.written.TakesEffect() ==> |v.log| > 0 && v.log[|v.log| - 1] == Landed(o, out.result))
  {
    hide Lists, FirstOwned, OutcomeOf, NewStatus, Whole, Script, Run, LookStep, ActStep, CreateJobStep, WriteStep;
    ScriptIsWhole(p, w, n, a, items);
    WholeUnfolds(p, w, n, a, items);
    var w1 := FetchStep(w, n);
    StepsDecide(p, w1, n, a, items);
    var w2 := CreateJobStep(p, ActStep(p, LookStep(p, w1, n, a, items), n, a), n, a);
    var o := w.objects[n];
    var out := OutcomeOf(p, o, w.jobs, FirstOwned(items, o.uid), w.now, a);
    WriteEnds(w2, n, o, out.result, a);
    assert w2.flights - {n} == w.flights;
  }

  /** What a reconcile that reaches the Jobs does and says: it waits for a stale Job with active pods, deletes any
      other stale one, creates the Job that is missing once the pre-checks pass, and reads a current one off. */
  lemma OutcomeMeaning(p: Params, o: DBUpgrade, jobs: map<string, Job>, found: Option<Job>, now: Time, a: Answers)
    requires EarlyResult(o.spec, a).None?
    ensures
      var out := OutcomeOf(p, o, jobs, found, now, a);
      var name := "dbupgrade-" + o.name + "-" + p.hash(o.spec);
      if !a.listed then
        out == Outcome(jobs, ReconcileResult(false, Initializing, false, Initializing, 5_000_000_000, None))
      else match found {
        case None =>
          if !PreChecksResult(p, o.spec, a).ready then out == Outcome(jobs, PreChecksResult(p, o.spec, a))
          else
            && out.jobs == (if a.created == Failed || name in jobs then jobs
                            else jobs[name := Job(name, [o.uid], JobStatus(0, [], None))])
            && out.result ==
                 (if a.created != Answered then
                    ReconcileResult(false, JobFailed, false, JobFailed, 30_000_000_000, None)
                  else if name in jobs then ReconcileResult(false, Initializing, true, JobPending, 2_000_000_000, None)
                  else ReconcileResult(false, Initializing, true, JobPending, 5_000_000_000, None))
        case Some(job) =>
          if job.name == name then out == Outcome(jobs, SyncResult(p, o, job, now, a))
          else if job.status.active > 0 then
            out == Outcome(jobs, ReconcileResult(false, Initializing, true, MigrationInProgress, 10_000_000_000, None))
          else
            && out.jobs == (if a.deleted == Failed then jobs else jobs - {job.name})
            && out.result == ReconcileResult(false, Initializing, false, Initializing,
                                             if a.deleted == Answered then 2_000_000_000 else 5_000_000_000, None)
      }
  {
    hide PreChecksResult, SyncResult;
  }
}
