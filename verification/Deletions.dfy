/** Exactly when the operator cuts a migration short. */
module Deletions {
  import opened Types
  import opened Conditions
  import opened Decision
  import opened Protocol
  import opened StoreSafety
  import opened Atomic
  import opened OwnJobs
  import Webhook

  // ---------- One reconcile ----------

  /** The object owns this Job and it is neither complete nor failed. */
  ghost predicate Migrates(w: World, n: string, j: Job) {
    n in w.objects && OwnJob(w.jobs, w.objects[n].uid) == Some(j) && !IsFinished(j)
  }

  /** A reconcile takes the unfinished Job of its object away exactly when the Job is for another spec, has no
      active pods, and the API lets the reconcile get that far. */
  lemma ReconcileCutsIff(p: Params, w: World, n: string, j: Job, a: Answers, items: seq<Job>)
    requires StoreInv(w) && n !in w.flights && Migrates(w, n, j) && Lists(items, w.jobs)
    ensures
      var o := w.objects[n];
      var v := Run(p, w, Script(n, a, items));
      && (!Migrates(v, n, j) <==>
            j.name != ExpectedName(p, o) && !IsRunning(j) && ReachesJobs(o.spec, a) && a.deleted.TakesEffect())
      && (!Migrates(v, n, j) ==> OwnJob(v.jobs, o.uid).None?)
  {
    hide Run, Script, Lists, FirstOwned, OutcomeOf, OwnJob, NewStatus, JobsOk, OneJobEach, FlightsOk, ReachesJobs,
         ExpectedName, IsRunning, IsSucceeded, IsFailed;
    ReconcileIsAtomic(p, w, n, a, items);
    NextJobIsOwn(p, w, w.objects[n], items, a);
  }

  // ---------- A change of the spec ----------

  /** When the spec is changed under the unfinished Job that was created for it, the next reconcile takes the
      Job away exactly when the change is admitted, has another hash, and finds the Job without active pods;
      with the webhook it is admitted exactly when it is sound, keeps the target, and the status does not say
      Progressing. */
  lemma UpdateCutsIff(p: Params, w: World, n: string, j: Job, spec: Spec, a: Answers, items: seq<Job>)
    requires StoreInv(w) && n !in w.flights && Migrates(w, n, j) && Lists(items, w.jobs)
    requires j.name == ExpectedName(p, w.objects[n])
    ensures
      var o := w.objects[n];
      var v := Run(p, Step(p, w, UpdateObject(n, spec)), Script(n, a, items));
      !Migrates(v, n, j) <==>
        && (p.webhook ==>
              && Webhook.SoundSpec(p.parse, spec)
              && Webhook.TargetOf(spec.database) == Webhook.TargetOf(o.spec.database)
              && !IsTrue(o.status.conditions, Progressing))
        && p.hash(spec) != p.hash(o.spec)
        && !IsRunning(j) && ReachesJobs(spec, a) && a.deleted.TakesEffect()
  {
    hide Run, Script, Lists, OwnJob, StoreInv, ReachesJobs, IsRunning, IsSucceeded, IsFailed, IsTrue, JobName,
         Webhook.SoundSpec, Webhook.TargetOf, Webhook.AdmitsUpdate;
    var v := Step(p, w, UpdateObject(n, spec));
    StoreInvStep(p, w, UpdateObject(n, spec));
    Webhook.UpdateAdmittedIff(p.parse, w.objects[n], spec);
    ReconcileCutsIff(p, v, n, j, a, items);
    OtherHashOtherName(p, w.objects[n], v.objects[n]);
  }

  lemma OtherHashOtherName(p: Params, o: DBUpgrade, other: DBUpgrade)
    requires o.name == other.name
    ensures ExpectedName(p, o) == ExpectedName(p, other) <==> p.hash(o.spec) == p.hash(other.spec)
  {
    if ExpectedName(p, o) == ExpectedName(p, other) {
      JobNameIsInjective(o.name, p.hash(o.spec), other.name, p.hash(other.spec));
    }
  }

  // ---------- Whole runs ----------

  /** What may be said of a Job that is deleted. */
  datatype Victim = Unfinished | Active {
    predicate Is(j: Job) {
      match this
      case Unfinished => !IsFinished(j)
      case Active => IsRunning(j)
    }
  }

  /** Such a Job of a DBUpgrade was deleted by the operator. */
  ghost predicate HasDeleted(log: seq<Event>, victim: Victim) {
    exists e :: e in log && e.JobDeleted? && !IsForeign(e.victim) && victim.Is(e.victim)
  }

  /** A migration was cut short. */
  ghost predicate CutShort(log: seq<Event>) {
    HasDeleted(log, Unfinished)
  }

  /** This action makes a reconcile delete such a Job: it had listed a stale one of that name as not active. */
  ghost predicate Deletes(p: Params, w: World, action: Action, victim: Victim) {
    && action.Act? && action.answers.deleted.TakesEffect()
    && action.name in w.flights && w.flights[action.name].Found? && w.flights[action.name].job.Some?
    && var seen := w.flights[action.name].job.value;
       && seen.name != ExpectedName(p, w.flights[action.name].o) && !IsRunning(seen)
       && seen.name in w.jobs && !IsForeign(w.jobs[seen.name]) && victim.Is(w.jobs[seen.name])
  }

  ghost predicate DeletesSomewhere(p: Params, w: World, actions: seq<Action>, victim: Victim)
    decreases |actions|
  {
    actions != [] &&
    (Deletes(p, w, actions[0], victim) || DeletesSomewhere(p, Step(p, w, actions[0]), actions[1..], victim))
  }

  lemma OneMoreEvent(log: seq<Event>, e: Event, victim: Victim)
    ensures HasDeleted(log + [e], victim) <==>
            HasDeleted(log, victim) || (e.JobDeleted? && !IsForeign(e.victim) && victim.Is(e.victim))
  {
    hide IsForeign, IsSucceeded, IsFailed, IsRunning;
    if d :| d in log && d.JobDeleted? && !IsForeign(d.victim) && victim.Is(d.victim) {
      assert d in log + [e];
    }
    if e.JobDeleted? && !IsForeign(e.victim) && victim.Is(e.victim) {
      assert e in log + [e];
    }
  }

  lemma ActDeletesIff(p: Params, w: World, n: string, a: Answers, victim: Victim)
    ensures HasDeleted(ActStep(p, w, n, a).log, victim) <==>
            HasDeleted(w.log, victim) || Deletes(p, w, Act(n, a), victim)
  {
    hide HasDeleted, IsForeign, IsSucceeded, IsFailed, IsRunning, ExpectedName, PreChecksResult, SyncResult, Stopped,
         InProgress;
    var v := ActStep(p, w, n, a);
    if v.log != w.log {
      assert v.log == w.log + [v.log[|w.log|]];
      OneMoreEvent(w.log, v.log[|w.log|], victim);
    }
  }

  lemma OthersDeleteNothing(p: Params, w: World, action: Action, victim: Victim)
    requires !action.Act?
    ensures HasDeleted(Step(p, w, action).log, victim) <==> HasDeleted(w.log, victim)
  {
    hide HasDeleted, IsForeign, IsSucceeded, IsFailed, IsRunning, ActStep, EarlyResult, Lists, FirstOwned, Live,
         NewStatus, Stopped, InProgress, NewJob, Webhook.AdmitsCreate, Webhook.AdmitsUpdate;
    var v := Step(p, w, action);
    if v.log != w.log {
      assert v.log == w.log + [v.log[|w.log|]];
      OneMoreEvent(w.log, v.log[|w.log|], victim);
    }
  }

  lemma StepDeletesIff(p: Params, w: World, action: Action, victim: Victim)
    ensures HasDeleted(Step(p, w, action).log, victim) <==>
            HasDeleted(w.log, victim) || Deletes(p, w, action, victim)
  {
    hide HasDeleted, Deletes, ActStep, CreateStep, UpdateStep, CollectStep, ForeignCreateStep, ForeignDeleteStep,
         RunJobStep, FetchStep, LookStep, CreateJobStep, WriteStep;
    if action.Act? {
      ActDeletesIff(p, w, action.name, action.answers, victim);
    } else {
      OthersDeleteNothing(p, w, action, victim);
      OnlyActingDeletes(p, w, action, victim);
    }
  }

  lemma OnlyActingDeletes(p: Params, w: World, action: Action, victim: Victim)
    ensures Deletes(p, w, action, victim) ==> action.Act?
  {
  }

  lemma {:induction false} RunDeletesIff(p: Params, w: World, actions: seq<Action>, victim: Victim)
    ensures HasDeleted(Run(p, w, actions).log, victim) <==>
            HasDeleted(w.log, victim) || DeletesSomewhere(p, w, actions, victim)
    decreases |actions|
  {
    hide HasDeleted, Deletes, Step;
    if actions != [] {
      StepDeletesIff(p, w, actions[0], victim);
      RunDeletesIff(p, Step(p, w, actions[0]), actions[1..], victim);
    }
  }

  /** A run deletes a DBUpgrade's Job that is unfinished, or one that is active, exactly when at some point a
      reconcile acts on a Job that it had listed as stale and not active, while the Job of that name is a
      DBUpgrade's and is unfinished, or active, by now. */
  lemma DeletedIff(p: Params, actions: seq<Action>, victim: Victim)
    ensures HasDeleted(Run(p, INIT, actions).log, victim) <==> DeletesSomewhere(p, INIT, actions, victim)
  {
    hide Run, DeletesSomewhere;
    RunDeletesIff(p, INIT, actions, victim);
  }
}
