/** Where the promises stop: for each condition of an orderly run, and for the webhook, a run that lacks it
    alone and in which the operator deletes a Job that is neither complete nor failed; runs in which a Job
    that was, or is, active is deleted; a run in which deleting the object lets an unchanged spec be migrated
    again; and a run in which a bake time overflows. */
module Counterexamples {
  import opened Types
  import opened Conditions
  import opened Decision
  import opened Protocol
  import opened StoreSafety
  import opened StatusSafety
  import opened Uninterrupted
  import opened Deletions
  import Reruns
  import Webhook

  /** Two specs without checks for the same self-hosted database. */
  ghost predicate TwoSpecs(p: Params, s: Spec, t: Spec) {
    && s.checks.None? && t.checks.None?
    && s.database == t.database && s.database.kind.SelfHosted? && s.database.aws.None?
    && Webhook.SoundDatabase(s.database)
    && p.hash(s) != p.hash(t)
  }

  /** Nothing goes wrong. */
  predicate AllWell(a: Answers) {
    a.secretReadable && a.secretEnsured && a.listed &&
    a.deleted.Answered? && a.created.Answered? && a.written.Answered?
  }

  /** With these answers a reconcile that finds no Job creates one. */
  ghost predicate Starts(p: Params, spec: Spec, a: Answers) {
    ReachesJobs(spec, a) && PreChecksResult(p, spec, a).ready && a.created.Answered?
  }

  lemma TwoSpecsStart(p: Params, s: Spec, t: Spec, a: Answers)
    requires TwoSpecs(p, s, t) && AllWell(a)
    ensures Starts(p, s, a) && Starts(p, t, a)
    ensures Webhook.SoundSpec(p.parse, s) && Webhook.SoundSpec(p.parse, t)
    ensures Webhook.TargetOf(s.database) == Webhook.TargetOf(t.database)
    ensures s != t && s.database.kind.SelfHosted?
  {
  }

  // ---------- Building runs ----------

  /** A run that goes on keeps every condition that it kept before. */
  ghost predicate KeepsAsMuch(p: Params, before: seq<Action>, after: seq<Action>) {
    forall c :: KeptBy(p, INIT, after, c) <==> KeptBy(p, INIT, before, c)
  }

  lemma OneMore(p: Params, actions: seq<Action>, w: World, action: Action)
    requires Run(p, INIT, actions) == w
    ensures Run(p, INIT, actions + [action]) == Step(p, w, action)
    ensures forall c :: KeptBy(p, INIT, actions + [action], c) <==> KeptBy(p, INIT, actions, c) && Keeps(w, action, c)
  {
    hide Step, Keeps;
    RunConcat(p, INIT, actions, [action]);
    assert [action][1..] == [];
    assert Run(p, w, [action]) == Run(p, Step(p, w, action), []);
    forall c
      ensures KeptBy(p, INIT, actions + [action], c) <==> KeptBy(p, INIT, actions, c) && Keeps(w, action, c)
    {
      KeptConcat(p, INIT, actions, [action], c);
      OneKept(p, w, action, c);
    }
  }

  lemma OneKept(p: Params, w: World, action: Action, c: Clause)
    ensures KeptBy(p, w, [action], c) <==> Keeps(w, action, c)
  {
    hide Step, Keeps;
    assert [action][1..] == [];
    assert KeptBy(p, Step(p, w, action), [], c);
  }

  /** An action that no condition is about. */
  lemma OneMoreFree(p: Params, actions: seq<Action>, w: World, action: Action)
    requires Run(p, INIT, actions) == w && !action.UpdateObject? && !action.Look?
    requires action.Create? ==> !action.answers.created.Lost?
    ensures Run(p, INIT, actions + [action]) == Step(p, w, action)
    ensures KeepsAsMuch(p, actions, actions + [action])
  {
    hide Step, Run, KeptBy;
    OneMore(p, actions, w, action);
  }

  /** A lookup that reaches the Jobs. */
  lemma OneMoreLook(p: Params, actions: seq<Action>, w: World, n: string, a: Answers, items: seq<Job>)
    requires Run(p, INIT, actions) == w && n in w.flights && ReachesJobs(w.flights[n].o.spec, a)
    ensures Run(p, INIT, actions + [Look(n, a, items)]) == Step(p, w, Look(n, a, items))
    ensures KeepsAsMuch(p, actions, actions + [Look(n, a, items)])
  {
    hide Step, Run, KeptBy, ReachesJobs;
    OneMore(p, actions, w, Look(n, a, items));
  }

  /** The world has an object of this name and spec, no Jobs but those given, and no reconcile under way. */
  ghost predicate Quiet(w: World, n: string, spec: Spec, jobs: map<string, Job>) {
    n in w.objects && w.objects[n].spec == spec && w.objects[n].name == n && w.jobs == jobs && w.flights == map[]
  }

  ghost predicate Progresses(w: World, n: string) {
    n in w.objects && IsTrue(w.objects[n].status.conditions, Progressing)
  }

  lemma Begin(p: Params, n: string, s: Spec) returns (actions: seq<Action>)
    requires Webhook.SoundSpec(p.parse, s)
    ensures
      var w := Run(p, INIT, actions);
      && Quiet(w, n, s, map[]) && !Progresses(w, n) && w.now == 0
      && w.log == [Stored(w.objects[n].uid, 1, s)]
      && w.objects[n].uid.UpgradeUid? && w.objects[n].uid in w.keys && w.keys[w.objects[n].uid] == n
      && w.objects[n].resourceVersion < w.nextVersion
      && w.objects[n].status == EMPTY_STATUS
    ensures forall c :: KeptBy(p, INIT, actions, c)
  {
    hide Webhook.SoundSpec, Webhook.AdmitsCreate, KeptBy;
    actions := [CreateObject(n, s)];
    assert actions == [] + [CreateObject(n, s)];
    OneMore(p, [], INIT, CreateObject(n, s));
    assert forall c :: KeptBy(p, INIT, [], c) by {
      NothingBroken(p);
    }
    Webhook.AdmittedIffSound(p.parse, s);
  }

  lemma NothingBroken(p: Params)
    ensures forall c :: KeptBy(p, INIT, [], c)
  {
  }

  /** The spec is changed, which the webhook admits while the status does not say Progressing. */
  lemma Change(p: Params, before: seq<Action>, n: string, s: Spec, t: Spec, a: Answers) returns (actions: seq<Action>)
    requires TwoSpecs(p, s, t) && AllWell(a)
    requires
      var w := Run(p, INIT, before);
      && n in w.objects && w.objects[n].spec == s && w.objects[n].name == n
      && (p.webhook ==> !Progresses(w, n))
    ensures
      var w, v := Run(p, INIT, before), Run(p, INIT, actions);
      && n in v.objects
      && v == w.(objects := w.objects[n := v.objects[n]], nextVersion := w.nextVersion + 1, log := v.log)
      && v.objects[n].spec == t && v.objects[n].name == n && v.objects[n].uid == w.objects[n].uid
      && v.objects[n].resourceVersion == w.nextVersion && v.objects[n].status == w.objects[n].status
    ensures actions == before + [UpdateObject(n, t)]
    ensures
      var w := Run(p, INIT, before);
      && (KeptBy(p, INIT, actions, NoReconcileUnderWay) <==>
            KeptBy(p, INIT, before, NoReconcileUnderWay) && n !in w.flights)
      && (KeptBy(p, INIT, actions, StatusHasLanded) <==>
            KeptBy(p, INIT, before, StatusHasLanded) && !Outstanding(w.log, w.objects[n].uid))
      && (KeptBy(p, INIT, actions, JobIsSeen) <==> KeptBy(p, INIT, before, JobIsSeen))
      && (KeptBy(p, INIT, actions, CreationIsKnown) <==> KeptBy(p, INIT, before, CreationIsKnown))
  {
    hide Run, KeptBy, Outstanding, TwoSpecs, Webhook.SoundSpec, Webhook.TargetOf, Webhook.AdmitsUpdate;
    var w := Run(p, INIT, before);
    actions := before + [UpdateObject(n, t)];
    OneMore(p, before, w, UpdateObject(n, t));
    TwoSpecsStart(p, s, t, a);
    Webhook.UpdateAdmittedIff(p.parse, w.objects[n], t);
  }

  /** What a reconcile has to write when it has created a Job. */
  function CreationResult(c: Answers): ReconcileResult {
    if c.created.Answered? then InProgress(Initializing, JobPending, 5) else Stopped(JobFailed, 30)
  }

  /** A reconcile that finds no Job creates one, up to its status write, whether it gets to know it or not. */
  lemma Start(p: Params, w: World, n: string, s: Spec, a: Answers, c: Answers) returns (v: World)
    requires Starts(p, s, a) && c.created.TakesEffect()
    requires w.jobs == map[] && w.flights.Keys == {n} && w.flights[n].Fetched?
    requires w.flights[n].o.spec == s && w.flights[n].o.name == n
    ensures v == Step(p, Step(p, Step(p, w, Look(n, a, [])), Act(n, a)), Create(n, c))
    ensures
      var o := w.flights[n].o;
      v == w.(flights := map[n := Done(o, CreationResult(c))],
              jobs := map[NewJob(p, o).name := NewJob(p, o)],
              log := w.log + [JobCreated(o, NewJob(p, o), a)])
    ensures ReachesJobs(s, a)
  {
    hide ExpectedName, InProgress, Stopped, CreateStep, UpdateStep, CollectStep, ForeignCreateStep, ForeignDeleteStep,
         RunJobStep, FetchStep, WriteStep, SyncResult, DeleteJobStep, PreChecksResult;
    var o := w.flights[n].o;
    var w1 := Step(p, w, Look(n, a, []));
    assert w1 == w.(flights := map[n := Found(o, None)]);
    hide LookStep;
    var w2 := Step(p, w1, Act(n, a));
    assert w2 == w.(flights := map[n := Cleared(o, a)]);
    hide ActStep;
    v := Step(p, w2, Create(n, c));
  }

  lemma StartRun(p: Params, before: seq<Action>, n: string, s: Spec, a: Answers, c: Answers)
    returns (actions: seq<Action>)
    requires Starts(p, s, a) && c.created.TakesEffect()
    requires
      var w := Run(p, INIT, before);
      && w.jobs == map[] && w.flights.Keys == {n} && w.flights[n].Fetched?
      && w.flights[n].o.spec == s && w.flights[n].o.name == n
    ensures
      var w := Run(p, INIT, before);
      var o := w.flights[n].o;
      Run(p, INIT, actions) ==
        w.(flights := map[n := Done(o, CreationResult(c))],
           jobs := map[NewJob(p, o).name := NewJob(p, o)],
           log := w.log + [JobCreated(o, NewJob(p, o), a)])
    ensures forall clause ::
      KeptBy(p, INIT, actions, clause) <==>
        KeptBy(p, INIT, before, clause) && (clause == CreationIsKnown ==> c.created.Answered?)
    ensures Create(n, c) in actions
  {
    hide Run, Step, NewJob, CreationResult, KeptBy, PreChecksResult, ReachesJobs;
    var w := Run(p, INIT, before);
    var v := Start(p, w, n, s, a, c);
    var one := before + [Look(n, a, [])];
    OneMoreLook(p, before, w, n, a, []);
    var two := one + [Act(n, a)];
    OneMoreFree(p, one, Run(p, INIT, one), Act(n, a));
    actions := two + [Create(n, c)];
    OneMore(p, two, Run(p, INIT, two), Create(n, c));
    StartsClear(p, w, n, a);
  }

  lemma StartsClear(p: Params, w: World, n: string, a: Answers)
    requires w.jobs == map[] && n in w.flights && w.flights[n].Fetched? && Starts(p, w.flights[n].o.spec, a)
    ensures
      var v := Step(p, Step(p, w, Look(n, a, [])), Act(n, a));
      n in v.flights && v.flights[n].Cleared?
  {
    hide ExpectedName, InProgress, CreateStep, UpdateStep, CollectStep, ForeignCreateStep, ForeignDeleteStep,
         RunJobStep, FetchStep, WriteStep, SyncResult, DeleteJobStep, PreChecksResult, CreateJobStep;
    assert Step(p, w, Look(n, a, [])) == w.(flights := w.flights[n := Found(w.flights[n].o, None)]);
  }

  lemma Fetching(p: Params, before: seq<Action>, n: string) returns (actions: seq<Action>)
    requires var w := Run(p, INIT, before); n in w.objects && w.flights == map[]
    ensures
      var w := Run(p, INIT, before);
      Run(p, INIT, actions) == w.(flights := map[n := Fetched(w.objects[n])])
    ensures KeepsAsMuch(p, before, actions)
    ensures actions == before + [Fetch(n)]
  {
    hide Run, KeptBy;
    var w := Run(p, INIT, before);
    actions := before + [Fetch(n)];
    OneMoreFree(p, before, w, Fetch(n));
  }

  /** A Job has been created for the object as it was first stored, and its status is yet to be written. */
  lemma Started(p: Params, n: string, s: Spec, a: Answers) returns (actions: seq<Action>, o: DBUpgrade)
    requires Webhook.SoundSpec(p.parse, s) && Starts(p, s, a)
    ensures
      var w := Run(p, INIT, actions);
      && o.name == n && o.spec == s && o.uid.UpgradeUid? && n in w.objects && w.objects[n] == o
      && o.uid in w.keys && w.keys[o.uid] == n && o.status == EMPTY_STATUS && w.now == 0
      && w.flights == map[n := Done(o, InProgress(Initializing, JobPending, 5))]
      && w.jobs == map[NewJob(p, o).name := NewJob(p, o)]
      && w.log == [Stored(o.uid, 1, s), JobCreated(o, NewJob(p, o), a)]
      && !Progresses(w, n)
    ensures forall c :: KeptBy(p, INIT, actions, c)
  {
    assert a.created.Answered?;
    hide Run, KeptBy, NewJob, InProgress, Starts, Webhook.SoundSpec;
    var begun := Begin(p, n, s);
    var fetched := Fetching(p, begun, n);
    o := Run(p, INIT, begun).objects[n];
    actions := StartRun(p, fetched, n, s, a, a);
  }

  lemma StatusIsOutstanding(log: seq<Event>, o: DBUpgrade, job: Job, a: Answers)
    ensures Outstanding(log + [JobCreated(o, job, a)], o.uid)
  {
    OutstandingGrows(log, JobCreated(o, job, a), o.uid);
  }

  /** The status of that reconcile lands. */
  lemma Written(p: Params, n: string, s: Spec, a: Answers) returns (actions: seq<Action>, o: DBUpgrade)
    requires Webhook.SoundSpec(p.parse, s) && Starts(p, s, a) && a.written.TakesEffect()
    ensures
      var w := Run(p, INIT, actions);
      && o.name == n && o.spec == s && o.uid.UpgradeUid? && w.now == 0
      && n in w.objects && w.objects[n].uid == o.uid && w.objects[n].status.jobCompletedAt.None?
      && Quiet(w, n, s, map[NewJob(p, o).name := NewJob(p, o)])
      && Progresses(w, n) && !Outstanding(w.log, o.uid)
    ensures forall c :: KeptBy(p, INIT, actions, c)
  {
    hide Run, KeptBy, NewJob, Starts, Webhook.SoundSpec, NewStatus, Outstanding, IsTrue, StatusOk, StoreInv;
    var started;
    started, o := Started(p, n, s, a);
    var w := Run(p, INIT, started);
    actions := started + [Write(n, a)];
    OneMoreFree(p, started, w, Write(n, a));
    StatusOkFromStart(p, started);
    var r := InProgress(Initializing, JobPending, 5);
    assert StatusOk(o);
    NewStatusIsOk(o, r, w.now);
    OutstandingGrows(w.log, Landed(o, r), o.uid);
    NothingCompleted(o, r, w.now);
  }

  lemma NothingCompleted(o: DBUpgrade, r: ReconcileResult, now: Time)
    requires o.status.jobCompletedAt.None? && r.jobCompletedAt.None?
    ensures NewStatus(o, r, now).jobCompletedAt.None?
  {
  }

  // ---------- Cutting a migration short ----------

  /** The conditions that a run keeps are all but one. */
  ghost predicate LacksOnly(p: Params, actions: seq<Action>, clause: Clause) {
    forall c :: KeptBy(p, INIT, actions, c) <==> c != clause
  }

  lemma OtherName(p: Params, n: string, s: Spec, t: Spec)
    requires p.hash(s) != p.hash(t)
    ensures JobName(n, p.hash(s)) != JobName(n, p.hash(t))
  {
    if JobName(n, p.hash(s)) == JobName(n, p.hash(t)) {
      JobNameIsInjective(n, p.hash(s), n, p.hash(t));
    }
  }

  /** The spec has changed under the Job of the object. */
  ghost predicate Stale(p: Params, w: World, n: string, o: DBUpgrade, job: Job, s: Spec, t: Spec) {
    && o.name == n && o.spec == s && o.uid.UpgradeUid?
    && job.name == NewJob(p, o).name && job.owners == [o.uid]
    && Quiet(w, n, t, map[job.name := job])
    && w.objects[n].uid == o.uid
  }

  /** A reconcile looks up a stale Job. */
  lemma LookUp(p: Params, before: seq<Action>, n: string, o: DBUpgrade, job: Job, s: Spec, t: Spec, a: Answers)
    returns (actions: seq<Action>)
    requires TwoSpecs(p, s, t) && AllWell(a) && Stale(p, Run(p, INIT, before), n, o, job, s, t)
    ensures
      var w := Run(p, INIT, before);
      Run(p, INIT, actions) == w.(flights := map[n := Found(w.objects[n], Some(job))])
    ensures KeepsAsMuch(p, before, actions)
    ensures before <= actions
  {
    hide Run, KeptBy, NewJob, TwoSpecs, AllWell;
    var w := Run(p, INIT, before);
    var fetched := Fetching(p, before, n);
    TwoSpecsStart(p, s, t, a);
    hide Starts;
    actions := fetched + [Look(n, a, [job])];
    assert Lists([job], w.jobs);
    ReachingJobs(p, t, a);
    OneMoreLook(p, fetched, Run(p, INIT, fetched), n, a, [job]);
    LookFinds(p, Run(p, INIT, fetched), n, job, a);
  }

  lemma ReachingJobs(p: Params, spec: Spec, a: Answers)
    requires Starts(p, spec, a)
    ensures ReachesJobs(spec, a)
  {
  }

  lemma LookFinds(p: Params, w: World, n: string, job: Job, a: Answers)
    requires n in w.flights && w.flights[n].Fetched? && ReachesJobs(w.flights[n].o.spec, a)
    requires Lists([job], w.jobs) && job.owners == [w.flights[n].o.uid]
    ensures Step(p, w, Look(n, a, [job])) == w.(flights := w.flights[n := Found(w.flights[n].o, Some(job))])
  {
    hide Lists, EarlyResult, CreateStep, UpdateStep, CollectStep, ForeignCreateStep, ForeignDeleteStep, RunJobStep,
         CreateJobStep, WriteStep, ActStep, FetchStep;
  }

  /** A reconcile that has listed a stale Job as not active deletes it, whatever it is by now. */
  lemma Delete(p: Params, before: seq<Action>, n: string, seen: Job, a: Answers) returns (actions: seq<Action>)
    requires a.deleted.TakesEffect()
    requires
      var w := Run(p, INIT, before);
      && n in w.flights && w.flights[n].Found? && w.flights[n].job == Some(seen)
      && seen.name != ExpectedName(p, w.flights[n].o) && !IsRunning(seen) && seen.name in w.jobs
    ensures
      var w := Run(p, INIT, before);
      Run(p, INIT, actions).log == w.log + [JobDeleted(w.flights[n].o, seen, w.jobs[seen.name])]
    ensures KeepsAsMuch(p, before, actions)
    ensures before <= actions
  {
    hide Run, KeptBy, ExpectedName, PreChecksResult, SyncResult, Stopped, InProgress, IsRunning;
    var w := Run(p, INIT, before);
    actions := before + [Act(n, a)];
    OneMoreFree(p, before, w, Act(n, a));
  }

  /** Once the spec has changed under an unfinished Job that is not active, the next reconcile deletes it. */
  lemma Cut(p: Params, before: seq<Action>, n: string, o: DBUpgrade, s: Spec, t: Spec, a: Answers)
    returns (actions: seq<Action>)
    requires TwoSpecs(p, s, t) && AllWell(a) && Stale(p, Run(p, INIT, before), n, o, NewJob(p, o), s, t)
    ensures CutShort(Run(p, INIT, actions).log)
    ensures JobDeleted(Run(p, INIT, before).objects[n], NewJob(p, o), NewJob(p, o)) in Run(p, INIT, actions).log
    ensures KeepsAsMuch(p, before, actions)
    ensures before <= actions
  {
    hide Run, KeptBy, JobName;
    var job := NewJob(p, o);
    var found := LookUp(p, before, n, o, job, s, t, a);
    OtherName(p, n, s, t);
    actions := Delete(p, found, n, job, a);
    var e := JobDeleted(Run(p, INIT, before).objects[n], job, job);
    assert e in Run(p, INIT, actions).log;
    assert o.uid in job.owners;
    Unfinished(p, o, 0);
  }

  /** The spec is changed while a reconcile that has read the old one is still to create its Job. */
  lemma ChangeDuringReconcile(p: Params, n: string, s: Spec, t: Spec, a: Answers) returns (actions: seq<Action>)
    requires p.webhook && TwoSpecs(p, s, t) && AllWell(a)
    ensures CutShort(Run(p, INIT, actions).log)
    ensures LacksOnly(p, actions, NoReconcileUnderWay)
  {
    hide Run, KeptBy, JobName, InProgress, TwoSpecs, AllWell, NewStatus, Webhook.SoundSpec;
    TwoSpecsStart(p, s, t, a);
    hide Starts;
    var begun := Begin(p, n, s);
    var fetched := Fetching(p, begun, n);
    var w := Run(p, INIT, fetched);
    var o := w.objects[n];
    assert !Outstanding(w.log, o.uid) by {
      assert w.log == [] + [Stored(o.uid, 1, s)];
      OutstandingGrows([], Stored(o.uid, 1, s), o.uid);
    }
    var changed := Change(p, fetched, n, s, t, a);
    hide Outstanding;
    var started := StartRun(p, changed, n, s, a, a);
    var written := started + [Write(n, a)];
    OneMoreFree(p, started, Run(p, INIT, started), Write(n, a));
    actions := Cut(p, written, n, o, s, t, a);
  }

  /** The operator crashes between creating the Job and writing the status, and the spec is changed before
      the next reconcile. */
  lemma ChangeAfterCrash(p: Params, n: string, s: Spec, t: Spec, a: Answers) returns (actions: seq<Action>)
    requires p.webhook && TwoSpecs(p, s, t) && AllWell(a)
    ensures CutShort(Run(p, INIT, actions).log)
    ensures LacksOnly(p, actions, StatusHasLanded)
    ensures Crash(n) in actions
  {
    hide Run, KeptBy, NewJob, TwoSpecs, AllWell, Outstanding;
    var changed, o := CrashAndChange(p, n, s, t, a);
    actions := Cut(p, changed, n, o, s, t, a);
  }

  lemma CrashAndChange(p: Params, n: string, s: Spec, t: Spec, a: Answers) returns (actions: seq<Action>, o: DBUpgrade)
    requires TwoSpecs(p, s, t) && AllWell(a)
    ensures Stale(p, Run(p, INIT, actions), n, o, NewJob(p, o), s, t)
    ensures LacksOnly(p, actions, StatusHasLanded)
    ensures Crash(n) in actions
  {
    hide Run, KeptBy, TwoSpecs, AllWell, Outstanding, Webhook.SoundSpec, InProgress, JobName;
    TwoSpecsStart(p, s, t, a);
    hide Starts;
    var started;
    started, o := Started(p, n, s, a);
    var w := Run(p, INIT, started);
    var crashed := started + [Crash(n)];
    OneMoreFree(p, started, w, Crash(n));
    assert Run(p, INIT, crashed) == w.(flights := map[]);
    assert w.log == [Stored(o.uid, 1, s)] + [JobCreated(o, NewJob(p, o), a)];
    StatusIsOutstanding([Stored(o.uid, 1, s)], o, NewJob(p, o), a);
    actions := Change(p, crashed, n, s, t, a);
  }

  /** Without the webhook, in a run that is orderly otherwise, the spec is changed while the status says
      Progressing. */
  lemma ChangeWithoutWebhook(p: Params, n: string, s: Spec, t: Spec, a: Answers) returns (actions: seq<Action>, k: nat)
    requires !p.webhook && TwoSpecs(p, s, t) && AllWell(a)
    ensures CutShort(Run(p, INIT, actions).log)
    ensures OrderlyRun(p, INIT, actions)
    ensures k < |actions| && actions[k] == UpdateObject(n, t)
    ensures Progresses(Run(p, INIT, actions[..k]), n) && Run(p, INIT, actions[..k]).objects[n].spec == s
  {
    hide Run, KeptBy, OrderlyRun, JobName, TwoSpecs, Outstanding, Webhook.SoundSpec;
    TwoSpecsStart(p, s, t, a);
    hide Starts;
    var written, o := Written(p, n, s, a);
    var changed := Change(p, written, n, s, t, a);
    actions := Cut(p, changed, n, o, s, t, a);
    k := |written|;
    assert actions[..|changed|] == changed && actions[..k] == written;
    OrderlyIffAllKept(p, INIT, actions);
  }

  // ---------- A lost answer ----------

  /** The Job is created, but the answer is lost: the reconcile writes that creation failed and that nothing
      progresses. */
  lemma LoseAnswer(p: Params, n: string, s: Spec, t: Spec, a: Answers) returns (actions: seq<Action>, o: DBUpgrade)
    requires TwoSpecs(p, s, t) && AllWell(a)
    ensures
      var v := Run(p, INIT, actions);
      && o.name == n && o.spec == s && o.uid.UpgradeUid?
      && Quiet(v, n, s, map[NewJob(p, o).name := NewJob(p, o)]) && !Progresses(v, n)
      && v.objects[n].uid == o.uid && !Outstanding(v.log, o.uid)
    ensures LacksOnly(p, actions, CreationIsKnown)
    ensures Create(n, a.(created := Lost)) in actions
  {
    hide Run, KeptBy, TwoSpecs, Outstanding, Webhook.SoundSpec, NewStatus, NewJob, IsTrue, StatusOk, StoreInv;
    TwoSpecsStart(p, s, t, a);
    hide Starts;
    var lost := a.(created := Lost);
    var begun := Begin(p, n, s);
    o := Run(p, INIT, begun).objects[n];
    var fetched := Fetching(p, begun, n);
    var started := StartRun(p, fetched, n, s, a, lost);
    var w := Run(p, INIT, started);
    actions := started + [Write(n, a)];
    OneMoreFree(p, started, w, Write(n, a));
    StatusOkFromStart(p, started);
    assert StatusOk(o);
    NewStatusIsOk(o, Stopped(JobFailed, 30), w.now);
    OutstandingGrows(w.log, Landed(o, Stopped(JobFailed, 30)), o.uid);
  }

  /** The answer to the creation of the Job is lost: the status that lands denies Progressing under the
      unfinished Job, and the spec is changed. */
  lemma ChangeAfterLostAnswer(p: Params, n: string, s: Spec, t: Spec, a: Answers) returns (actions: seq<Action>, k: nat)
    requires p.webhook && TwoSpecs(p, s, t) && AllWell(a)
    ensures CutShort(Run(p, INIT, actions).log)
    ensures LacksOnly(p, actions, CreationIsKnown)
    ensures Create(n, a.(created := Lost)) in actions
    ensures k < |actions| && actions[k] == UpdateObject(n, t)
    ensures
      var w := Run(p, INIT, actions[..k]);
      && n in w.objects && w.objects[n].spec == s && !Progresses(w, n)
      && HasUnfinished(w, w.objects[n].uid) && !Outstanding(w.log, w.objects[n].uid)
  {
    hide Run, KeptBy, TwoSpecs, AllWell, Outstanding, JobName;
    var lost, o := LoseAnswer(p, n, s, t, a);
    var changed := Change(p, lost, n, s, t, a);
    actions := Cut(p, changed, n, o, s, t, a);
    k := |lost|;
    assert actions[..|changed|] == changed && actions[..k] == lost;
    var w := Run(p, INIT, lost);
    assert OwnedBy(w.jobs[NewJob(p, o).name], o.uid) && !IsFinished(w.jobs[NewJob(p, o).name]);
  }

  // ---------- A lost Secret ----------

  /** After its Job was created, the next reconcile finds the customer's Secret gone and writes that nothing
      progresses. */
  lemma LoseSecret(p: Params, n: string, s: Spec, t: Spec, a: Answers)
    returns (actions: seq<Action>, o: DBUpgrade, items: seq<Job>)
    requires TwoSpecs(p, s, t) && AllWell(a)
    ensures
      var v := Run(p, INIT, actions);
      && o.name == n && o.spec == s && o.uid.UpgradeUid?
      && Quiet(v, n, s, map[NewJob(p, o).name := NewJob(p, o)]) && !Progresses(v, n)
      && v.objects[n].uid == o.uid && !Outstanding(v.log, o.uid)
    ensures LacksOnly(p, actions, JobIsSeen)
    ensures Look(n, a.(secretReadable := false), items) in actions
  {
    hide Run, KeptBy, TwoSpecs, Outstanding, Webhook.SoundSpec, NewStatus, NewJob, IsTrue, StatusOk, StoreInv;
    TwoSpecsStart(p, s, t, a);
    hide Starts;
    var lost := a.(secretReadable := false);
    var written;
    written, o := Written(p, n, s, a);
    items := [NewJob(p, o)];
    var fetched := Fetching(p, written, n);
    var w := Run(p, INIT, fetched);
    var current := w.objects[n];
    var looked := fetched + [Look(n, lost, items)];
    OneMore(p, fetched, w, Look(n, lost, items));
    LookLoses(p, w, n, o, lost);
    var u := Run(p, INIT, looked);
    actions := looked + [Write(n, lost)];
    OneMoreFree(p, looked, u, Write(n, lost));
    StatusOkFromStart(p, looked);
    assert StatusOk(current);
    NewStatusIsOk(current, Stopped(SecretNotFound, 30), u.now);
    OutstandingGrows(u.log, Landed(current, Stopped(SecretNotFound, 30)), o.uid);
  }

  lemma LookLoses(p: Params, w: World, n: string, o: DBUpgrade, lost: Answers)
    requires n in w.flights && w.flights[n].Fetched? && w.flights[n].o.spec.database.kind.SelfHosted?
    requires w.flights[n].o.uid == o.uid
    requires w.jobs == map[NewJob(p, o).name := NewJob(p, o)] && !lost.secretReadable
    ensures Step(p, w, Look(n, lost, [NewJob(p, o)])) ==
            w.(flights := w.flights[n := Done(w.flights[n].o, Stopped(SecretNotFound, 30))])
    ensures !Keeps(w, Look(n, lost, [NewJob(p, o)]), JobIsSeen)
  {
    hide JobName, Stopped, CreateStep, UpdateStep, CollectStep, ForeignCreateStep, ForeignDeleteStep, RunJobStep,
         CreateJobStep, WriteStep, ActStep, FetchStep;
    var job := NewJob(p, o);
    assert Lists([job], w.jobs);
    assert w.jobs[job.name] == job && !IsFinished(job);
    assert HasUnfinished(w, o.uid);
  }

  /** The customer's Secret disappears while the Job is pending: the next reconcile writes that nothing
      progresses under the unfinished Job, and the spec is changed. */
  lemma ChangeAfterSecretIsLost(p: Params, n: string, s: Spec, t: Spec, a: Answers)
    returns (actions: seq<Action>, k: nat, items: seq<Job>)
    requires p.webhook && TwoSpecs(p, s, t) && AllWell(a)
    ensures CutShort(Run(p, INIT, actions).log)
    ensures LacksOnly(p, actions, JobIsSeen)
    ensures Look(n, a.(secretReadable := false), items) in actions
    ensures k < |actions| && actions[k] == UpdateObject(n, t)
    ensures
      var w := Run(p, INIT, actions[..k]);
      && n in w.objects && w.objects[n].spec == s && !Progresses(w, n)
      && HasUnfinished(w, w.objects[n].uid) && !Outstanding(w.log, w.objects[n].uid)
  {
    hide Run, KeptBy, TwoSpecs, AllWell, Outstanding, JobName;
    var lost, o;
    lost, o, items := LoseSecret(p, n, s, t, a);
    var changed := Change(p, lost, n, s, t, a);
    actions := Cut(p, changed, n, o, s, t, a);
    k := |lost|;
    assert actions[..|changed|] == changed && actions[..k] == lost;
    var w := Run(p, INIT, lost);
    assert OwnedBy(w.jobs[NewJob(p, o).name], o.uid) && !IsFinished(w.jobs[NewJob(p, o).name]);
  }

  // ---------- Active Jobs ----------

  /** The Job with this many active pods. */
  function WithActive(job: Job, active: int): Job {
    job.(status := job.status.(active := active))
  }

  lemma SetActive(p: Params, before: seq<Action>, job: Job, active: int) returns (actions: seq<Action>)
    requires var w := Run(p, INIT, before); job.name in w.jobs && w.jobs[job.name] == job
    requires !IsFinished(job) && !IsFinished(WithActive(job, active))
    ensures
      var w := Run(p, INIT, before);
      Run(p, INIT, actions) == w.(jobs := w.jobs[job.name := WithActive(job, active)])
    ensures before <= actions
  {
    hide Run, KeptBy, IsSucceeded, IsFailed;
    var w := Run(p, INIT, before);
    var action := RunJob(job.name, WithActive(job, active).status);
    actions := before + [action];
    OneMoreFree(p, before, w, action);
  }

  lemma Unfinished(p: Params, o: DBUpgrade, active: int)
    ensures !IsFinished(NewJob(p, o)) && !IsFinished(WithActive(NewJob(p, o), active))
  {
  }

  /** A Job that becomes active between being listed and being deleted is deleted while it is active. */
  lemma DeletedWhileActive(p: Params, n: string, s: Spec, t: Spec, a: Answers) returns (actions: seq<Action>)
    requires TwoSpecs(p, s, t) && AllWell(a)
    ensures exists e :: e in Run(p, INIT, actions).log && e.JobDeleted? && OwnedBy(e.victim, e.o.uid) &&
                        IsRunning(e.victim) && !IsFinished(e.victim)
  {
    hide Run, KeptBy, TwoSpecs, JobName, IsSucceeded, IsFailed;
    var changed, o := CrashAndChange(p, n, s, t, a);
    var job := NewJob(p, o);
    var current := Run(p, INIT, changed).objects[n];
    var found := LookUp(p, changed, n, o, job, s, t, a);
    Unfinished(p, o, 1);
    var active := SetActive(p, found, job, 1);
    OtherName(p, n, s, t) by {
      DifferentHashes(p, s, t);
    }
    actions := Delete(p, active, n, job, a);
    assert JobDeleted(current, job, WithActive(job, 1)) in Run(p, INIT, actions).log;
  }

  lemma DifferentHashes(p: Params, s: Spec, t: Spec)
    requires TwoSpecs(p, s, t)
    ensures p.hash(s) != p.hash(t)
  {
  }

  /** A reconcile that sees a stale Job active waits for it. */
  lemma Wait(p: Params, before: seq<Action>, n: string, seen: Job, a: Answers) returns (actions: seq<Action>)
    requires
      var w := Run(p, INIT, before);
      && w.flights.Keys == {n} && w.flights[n].Found? && w.flights[n].job == Some(seen)
      && seen.name != ExpectedName(p, w.flights[n].o) && IsRunning(seen)
      && n in w.objects && w.objects[n] == w.flights[n].o && w.objects[n].name == n
    ensures
      var w, v := Run(p, INIT, before), Run(p, INIT, actions);
      Quiet(v, n, w.objects[n].spec, w.jobs) && v.objects[n].uid == w.objects[n].uid
    ensures before <= actions
  {
    hide Run, KeptBy, ExpectedName, PreChecksResult, SyncResult, IsRunning, InProgress, NewStatus;
    var w := Run(p, INIT, before);
    var waited := before + [Act(n, a)];
    OneMoreFree(p, before, w, Act(n, a));
    actions := waited + [Write(n, a)];
    OneMoreFree(p, waited, Run(p, INIT, waited), Write(n, a));
  }

  /** A stale Job that a reconcile has seen active, and has waited for, is deleted unfinished by a later one that
      sees no active pods. */
  lemma DeletedAfterWaiting(p: Params, n: string, s: Spec, t: Spec, a: Answers)
    returns (actions: seq<Action>, k: nat, seen: Job)
    requires TwoSpecs(p, s, t) && AllWell(a)
    ensures
      exists e :: e in Run(p, INIT, actions).log && e.JobDeleted? && e.victim.name == seen.name &&
                  OwnedBy(e.victim, e.o.uid) && !IsFinished(e.victim)
    ensures k <= |actions|
    ensures
      var w := Run(p, INIT, actions[..k]);
      n in w.flights && w.flights[n] == Found(w.flights[n].o, Some(seen)) && IsRunning(seen)
  {
    hide Run, KeptBy, TwoSpecs, AllWell, JobName, IsSucceeded, IsFailed, InProgress;
    var changed, o := CrashAndChange(p, n, s, t, a);
    var job := NewJob(p, o);
    Unfinished(p, o, 1);
    Unfinished(p, o, 0);
    seen := WithActive(job, 1);
    var active := SetActive(p, changed, job, 1);
    assert map[job.name := job][job.name := seen] == map[job.name := seen];
    var found := LookUp(p, active, n, o, seen, s, t, a);
    k := |found|;
    DifferentHashes(p, s, t);
    OtherName(p, n, s, t);
    var waited := Wait(p, found, n, seen, a);
    assert WithActive(seen, 0) == job;
    var idle := SetActive(p, waited, seen, 0);
    assert map[job.name := seen][job.name := job] == map[job.name := job];
    actions := Cut(p, idle, n, o, s, t, a);
    assert actions[..k] == found;
    assert JobDeleted(Run(p, INIT, idle).objects[n], job, job) in Run(p, INIT, actions).log;
  }

  // ---------- A foreign victim ----------

  /** The object is deleted and its Job collected between listing and deletion, and someone creates a Job of
      their own under the name: it is deleted. */
  lemma ForeignJobIsDeleted(p: Params, n: string, s: Spec, t: Spec, a: Answers) returns (actions: seq<Action>)
    requires TwoSpecs(p, s, t) && AllWell(a)
    ensures exists e :: e in Run(p, INIT, actions).log && e.JobDeleted? && IsForeign(e.victim)
  {
    hide Run, KeptBy, TwoSpecs, JobName, IsSucceeded, IsFailed;
    var changed, o := CrashAndChange(p, n, s, t, a);
    var job := NewJob(p, o);
    var current := Run(p, INIT, changed).objects[n];
    var found := LookUp(p, changed, n, o, job, s, t, a);
    var w := Run(p, INIT, found);
    var gone := found + [DeleteObject(n)];
    OneMoreFree(p, found, w, DeleteObject(n));
    var collected := gone + [CollectJob(job.name)];
    OneMoreFree(p, gone, Run(p, INIT, gone), CollectJob(job.name));
    var foreign := Job(job.name, [], NEW_JOB_STATUS);
    var taken := collected + [ForeignCreate(foreign)];
    OneMoreFree(p, collected, Run(p, INIT, collected), ForeignCreate(foreign));
    UidIsNamed(p, found, n);
    TakingTheName(p, w, n, o, job, foreign);
    DifferentHashes(p, s, t);
    OtherName(p, n, s, t);
    actions := Delete(p, taken, n, job, a);
    assert JobDeleted(current, job, foreign) in Run(p, INIT, actions).log;
  }

  lemma UidIsNamed(p: Params, actions: seq<Action>, n: string)
    requires n in Run(p, INIT, actions).objects
    ensures
      var w := Run(p, INIT, actions);
      w.objects[n].uid in w.keys && w.keys[w.objects[n].uid] == n
  {
    hide Run, JobsOk, OneJobEach, FlightsOk;
    StoreInvFromStart(p, actions);
  }

  lemma TakingTheName(p: Params, w: World, n: string, o: DBUpgrade, job: Job, foreign: Job)
    requires n in w.objects && w.objects[n].uid == o.uid && job.owners == [o.uid] && o.uid.UpgradeUid?
    requires w.jobs == map[job.name := job] && foreign.name == job.name && foreign.owners == []
    requires o.uid in w.keys ==> w.keys[o.uid] == n
    ensures
      var v := Step(p, Step(p, Step(p, w, DeleteObject(n)), CollectJob(job.name)), ForeignCreate(foreign));
      v == w.(objects := w.objects - {n}, jobs := map[job.name := foreign], log := w.log + [JobCollected(job)])
  {
    hide CreateStep, UpdateStep, ForeignDeleteStep, RunJobStep, FetchStep, LookStep, ActStep, CreateJobStep, WriteStep;
    var u := Step(p, Step(p, w, DeleteObject(n)), CollectJob(job.name));
    assert !Live(Step(p, w, DeleteObject(n)), o.uid);
    assert u == w.(objects := w.objects - {n}, jobs := map[], log := w.log + [JobCollected(job)]);
  }

  // ---------- A bake time that overflows ----------

  /** An admitted spec with one post-check that bakes for as long as an int32 allows. */
  ghost predicate LongBake(p: Params, s: Spec) {
    && p.restConfig && Webhook.SoundSpec(p.parse, s) && s.database.kind.SelfHosted?
    && s.checks.Some? && s.checks.value.pre == PreChecks([], [])
    && |s.checks.value.postMetrics| == 1 && s.checks.value.postMetrics[0].bakeSeconds == 0x7fff_ffff
  }

  /** The Job, complete as of one second from now. */
  function CompleteJob(job: Job): Job {
    job.(status := JobStatus(0, [JobCondition(JobCompleteCondition, ConditionTrue)], Some(SECOND)))
  }

  lemma LongBakeStarts(p: Params, s: Spec, a: Answers)
    requires LongBake(p, s) && AllWell(a)
    ensures Starts(p, s, a)
  {
  }

  /** The wait is negative, although the migration is complete and its post-check was not made. */
  lemma LongBakeOverflows(p: Params, o: DBUpgrade, j: Job, a: Answers)
    requires LongBake(p, o.spec)
    ensures
      var r := SyncResult(p, o, CompleteJob(j), 0, a);
      && r.requeueAfter == -0x8000_0000 * SECOND && !r.ready && r.progressing
      && r.readyReason == PostCheckBakeTimeWaiting
      && IsSucceeded(CompleteJob(j)) && CompletedAt(o, CompleteJob(j), 0) == SECOND
  {
    var metrics := o.spec.checks.value.postMetrics;
    assert metrics[0] in metrics && metrics == [metrics[0]];
    assert MaxBake(metrics) == 0x7fff_ffff;
    assert JobCondition(JobCompleteCondition, ConditionTrue) in CompleteJob(j).status.conditions;
    assert InRange(-SECOND) && Truncate(-SECOND) == -1;
    assert Wrap32(0x8000_0000) == -0x8000_0000;
  }

  lemma Completing(p: Params, w: World, o: DBUpgrade, job: Job)
    requires job == NewJob(p, o) && w.jobs == map[job.name := job]
    ensures
      var v := Step(p, w, RunJob(job.name, CompleteJob(job).status));
      v == w.(jobs := map[job.name := CompleteJob(job)], log := v.log)
    ensures CompleteJob(job).name == job.name && CompleteJob(job).owners == job.owners
  {
    hide JobName;
    assert !IsSucceeded(job) && !IsFailed(job);
  }

  lemma OneListed(w: World, job: Job)
    requires w.jobs == map[job.name := job]
    ensures Lists([job], w.jobs)
  {
  }

  /** A reconcile reads its Job off and writes the status. */
  lemma SyncAndWrite(p: Params, before: seq<Action>, n: string, job: Job, a: Answers) returns (actions: seq<Action>)
    requires
      var w := Run(p, INIT, before);
      && n in w.objects && w.flights == map[n := Fetched(w.objects[n])]
      && Starts(p, w.objects[n].spec, a) && a.written.TakesEffect()
      && w.jobs == map[job.name := job] && job.owners == [w.objects[n].uid]
      && job.name == ExpectedName(p, w.objects[n])
    ensures
      var w := Run(p, INIT, before);
      Landed(w.objects[n], SyncResult(p, w.objects[n], job, w.now, a)) in Run(p, INIT, actions).log
  {
    hide Run, KeptBy, ExpectedName, SyncResult, PreChecksResult, NewStatus, Starts, Lists, ReachesJobs,
         DeleteJobStep;
    var w := Run(p, INIT, before);
    var o := w.objects[n];
    var looked := before + [Look(n, a, [job])];
    ReachingJobs(p, o.spec, a);
    OneListed(w, job);
    OneMoreLook(p, before, w, n, a, [job]);
    LookFinds(p, w, n, job, a);
    var acted := looked + [Act(n, a)];
    OneMoreFree(p, looked, Run(p, INIT, looked), Act(n, a));
    actions := acted + [Write(n, a)];
    OneMoreFree(p, acted, Run(p, INIT, acted), Write(n, a));
    var v := Run(p, INIT, actions);
    assert v.log[|v.log| - 1] == Landed(o, SyncResult(p, o, job, w.now, a));
  }

  /** A clock that is one second behind is enough: a Job completes one second ahead of it, and the status lands
      that the migration is in progress, with nothing to come back for. */
  lemma BakeOverflowsInARun(p: Params, n: string, s: Spec, a: Answers) returns (actions: seq<Action>)
    requires LongBake(p, s) && AllWell(a)
    ensures
      exists o, r :: Landed(o, r) in Run(p, INIT, actions).log && o.spec == s &&
                     r.requeueAfter < 0 && r.progressing && r.readyReason == PostCheckBakeTimeWaiting
  {
    hide Run, KeptBy, JobName, Webhook.SoundSpec, Outstanding, SyncResult, CompleteJob, NewStatus;
    LongBakeStarts(p, s, a);
    hide Starts, LongBake;
    var written, o := Written(p, n, s, a);
    var job := NewJob(p, o);
    var w := Run(p, INIT, written);
    var complete := written + [RunJob(job.name, CompleteJob(job).status)];
    OneMoreFree(p, written, w, RunJob(job.name, CompleteJob(job).status));
    Completing(p, w, o, job);
    var fetched := Fetching(p, complete, n);
    var u := Run(p, INIT, fetched);
    actions := SyncAndWrite(p, fetched, n, CompleteJob(job), a);
    LongBakeOverflows(p, u.objects[n], job, a);
  }

  // ---------- A second migration for one spec ----------

  /** The object is deleted while a reconcile that has read it is about to list the Jobs, and its Job is
      garbage collected: the reconcile creates the Job for the same spec again. */
  lemma RerunAfterDeletion(p: Params, n: string, s: Spec, a: Answers) returns (actions: seq<Action>)
    requires Webhook.SoundSpec(p.parse, s) && Starts(p, s, a)
    ensures
      var log := Run(p, INIT, actions).log;
      exists i, k :: 0 <= i < k < |log| && Reruns.SameJob(log[i], log[k]) &&
                     (forall e | e in log :: !e.JobDeleted?)
  {
    assert a.created.Answered?;
    hide Run, Step, KeptBy, CreationResult, InProgress, Starts, NewJob, Webhook.SoundSpec;
    var started, o := Started(p, n, s, a);
    var w := Run(p, INIT, started);
    var job := NewJob(p, o);
    var collected := CollectUnderWay(p, started, n, o);
    actions := StartRun(p, collected, n, s, a, a);
    var log := Run(p, INIT, actions).log;
    var created := JobCreated(o, job, a);
    assert log == w.log + [JobCollected(job)] + [created];
    assert Reruns.SameJob(log[1], log[3]);
  }

  lemma CollectUnderWay(p: Params, before: seq<Action>, n: string, o: DBUpgrade) returns (actions: seq<Action>)
    requires
      var w := Run(p, INIT, before);
      && n in w.objects && w.objects[n] == o && o.name == n && o.uid.UpgradeUid? && w.flights.Keys == {n}
      && w.jobs == map[NewJob(p, o).name := NewJob(p, o)] && o.uid in w.keys && w.keys[o.uid] == n
    ensures
      var w := Run(p, INIT, before);
      Run(p, INIT, actions) ==
        w.(objects := w.objects - {n}, jobs := map[], flights := map[n := Fetched(o)],
           log := w.log + [JobCollected(NewJob(p, o))])
  {
    hide Run, Step, KeptBy, NewJob;
    var w := Run(p, INIT, before);
    CollectSteps(p, w, n, o);
    var crashed := before + [Crash(n)];
    OneMoreFree(p, before, w, Crash(n));
    var again := crashed + [Fetch(n)];
    OneMoreFree(p, crashed, Run(p, INIT, crashed), Fetch(n));
    var gone := again + [DeleteObject(n)];
    OneMoreFree(p, again, Run(p, INIT, again), DeleteObject(n));
    actions := gone + [CollectJob(NewJob(p, o).name)];
    OneMoreFree(p, gone, Run(p, INIT, gone), CollectJob(NewJob(p, o).name));
  }

  /** The reconcile is cut off, another one begins, the object is deleted and its Job collected. */
  lemma CollectSteps(p: Params, w: World, n: string, o: DBUpgrade)
    requires n in w.objects && w.objects[n] == o && o.name == n && o.uid.UpgradeUid? && w.flights.Keys == {n}
    requires w.jobs == map[NewJob(p, o).name := NewJob(p, o)]
    requires o.uid in w.keys && w.keys[o.uid] == n
    ensures
      Step(p, Step(p, Step(p, Step(p, w, Crash(n)), Fetch(n)), DeleteObject(n)), CollectJob(NewJob(p, o).name)) ==
        w.(objects := w.objects - {n}, jobs := map[], flights := map[n := Fetched(o)],
           log := w.log + [JobCollected(NewJob(p, o))])
  {
    hide ExpectedName;
    var w1 := Step(p, w, Crash(n));
    assert w1 == w.(flights := map[]);
    var w2 := Step(p, w1, Fetch(n));
    assert w2 == w.(flights := map[n := Fetched(o)]);
    var w3 := Step(p, w2, DeleteObject(n));
    assert w3 == w.(objects := w.objects - {n}, flights := map[n := Fetched(o)]);
  }
}
