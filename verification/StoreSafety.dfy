/** What every interleaving keeps in the store, with or without the webhook: names and owners fit
    together, each DBUpgrade owns at most one Job, and what a reconcile holds is not outdated in the
    ways that matter. */
module StoreSafety {
  import opened Types
  import opened Decision
  import opened Protocol

  ghost predicate NamedFor(jobName: string, name: string) {
    exists h: SpecHash :: jobName == JobName(name, h)
  }

  ghost predicate ObjectsOk(w: World) {
    && (forall n | n in w.objects ::
          && w.objects[n].name == n
          && w.objects[n].uid in w.keys && w.keys[w.objects[n].uid] == n
          && w.objects[n].resourceVersion < w.nextVersion)
    && (forall u | u in w.keys :: u.UpgradeUid? && u.serial < w.nextUid)
  }

  ghost predicate JobsOk(w: World) {
    && (forall n | n in w.jobs :: w.jobs[n].name == n)
    && (forall n, u | n in w.jobs && OwnedBy(w.jobs[n], u) && u.UpgradeUid? ::
          w.jobs[n].owners == [u] && u in w.keys && NamedFor(n, w.keys[u]))
  }

  /** Each DBUpgrade owns at most one Job. */
  ghost predicate OneJobEach(w: World) {
    forall n, m, u | n in w.jobs && m in w.jobs && OwnedBy(w.jobs[n], u) && OwnedBy(w.jobs[m], u) && u.UpgradeUid? ::
      n == m
  }

  ghost predicate OwnsNone(w: World, uid: Uid) {
    forall n | n in w.jobs :: !OwnedBy(w.jobs[n], uid)
  }

  /** The Job that a reconcile found is still its own, if it is any DBUpgrade's. */
  ghost predicate StillOwn(w: World, o: DBUpgrade, j: Job) {
    j.name in w.jobs && !IsForeign(w.jobs[j.name]) ==> Later(j, w.jobs[j.name])
  }

  ghost predicate FlightOk(w: World, n: string, f: Flight) {
    && f.o.name == n && f.o.uid.UpgradeUid? && f.o.uid in w.keys && w.keys[f.o.uid] == n
    && f.o.resourceVersion < w.nextVersion
    && (n in w.objects && w.objects[n].resourceVersion == f.o.resourceVersion ==> w.objects[n] == f.o)
    && (n in w.objects && w.objects[n].uid == f.o.uid ==>
          && f.o.generation <= w.objects[n].generation
          && (f.o.generation == w.objects[n].generation ==> f.o.spec == w.objects[n].spec))
    && (f.Found? && f.job.None? ==> OwnsNone(w, f.o.uid))
    && (f.Cleared? ==> OwnsNone(w, f.o.uid))
    && (f.Found? && f.job.Some? ==>
          f.job.value.owners == [f.o.uid] && NamedFor(f.job.value.name, n) && StillOwn(w, f.o, f.job.value))
  }

  ghost predicate FlightsOk(w: World) {
    forall n | n in w.flights :: FlightOk(w, n, w.flights[n])
  }

  ghost predicate StoreInv(w: World) {
    ObjectsOk(w) && JobsOk(w) && OneJobEach(w) && FlightsOk(w)
  }

  // ---------- Steps that leave the Jobs alone ----------

  lemma SameJobs(w: World, v: World, f: Flight)
    requires v.jobs == w.jobs
    ensures OwnsNone(v, f.o.uid) <==> OwnsNone(w, f.o.uid)
    ensures f.Found? && f.job.Some? ==> (StillOwn(v, f.o, f.job.value) <==> StillOwn(w, f.o, f.job.value))
  {
    hide Later;
  }

  lemma SameJobsOk(w: World, v: World)
    requires JobsOk(w) && OneJobEach(w) && v.jobs == w.jobs
    requires forall u | u in w.keys :: u in v.keys && v.keys[u] == w.keys[u]
    ensures JobsOk(v) && OneJobEach(v)
  {
    hide NamedFor;
  }

  // ---------- Users ----------

  lemma CreateKeeps(p: Params, w: World, n: string, spec: Spec)
    requires StoreInv(w)
    ensures StoreInv(CreateStep(p, w, n, spec))
  {
    hide Later, NamedFor, OwnsNone, StillOwn, JobsOk, OneJobEach;
    var v := CreateStep(p, w, n, spec);
    if v != w {
      SameJobsOk(w, v);
      forall m | m in v.flights
        ensures FlightOk(v, m, v.flights[m])
      {
        assert FlightOk(w, m, w.flights[m]);
        SameJobs(w, v, w.flights[m]);
      }
    }
  }

  lemma UpdateKeeps(p: Params, w: World, n: string, spec: Spec)
    requires StoreInv(w)
    ensures StoreInv(UpdateStep(p, w, n, spec))
  {
    hide Later, NamedFor, OwnsNone, StillOwn, JobsOk, OneJobEach;
    var v := UpdateStep(p, w, n, spec);
    if v != w {
      SameJobsOk(w, v);
      forall m | m in v.flights
        ensures FlightOk(v, m, v.flights[m])
      {
        assert FlightOk(w, m, w.flights[m]);
        SameJobs(w, v, w.flights[m]);
      }
    }
  }

  lemma DeleteKeeps(w: World, n: string)
    requires StoreInv(w)
    ensures StoreInv(w.(objects := w.objects - {n}))
  {
    hide Later, NamedFor;
  }

  // ---------- The rest of the cluster ----------

  /** Fewer Jobs: nothing to keep but what is left. */
  lemma FewerJobsKeep(w: World, v: World, n: string)
    requires StoreInv(w)
    requires v.jobs == w.jobs - {n}
    requires v.objects == w.objects && v.keys == w.keys && v.nextUid == w.nextUid && v.nextVersion == w.nextVersion
    requires v.flights == w.flights
    ensures StoreInv(v)
  {
    hide Later, NamedFor;
    assert forall m | m in w.flights :: FlightOk(v, m, w.flights[m]) by {
      forall m | m in w.flights
        ensures FlightOk(v, m, w.flights[m])
      {
        assert FlightOk(w, m, w.flights[m]);
      }
    }
  }

  lemma ForeignCreateKeeps(w: World, j: Job)
    requires StoreInv(w)
    ensures StoreInv(ForeignCreateStep(w, j))
  {
    hide Later, NamedFor, ObjectsOk, FlightOk;
    var v := ForeignCreateStep(w, j);
    if v != w {
      ObjectsStay(w, v);
      forall m | m in w.flights
        ensures FlightOk(v, m, w.flights[m])
      {
        FlightSeesForeignJob(w, v, j, m);
      }
    }
  }

  lemma FlightSeesForeignJob(w: World, v: World, j: Job, m: string)
    requires FlightsOk(w) && m in w.flights
    requires IsForeign(j) && j.name !in w.jobs && v.jobs == w.jobs[j.name := j]
    requires v.objects == w.objects && v.keys == w.keys && v.nextVersion == w.nextVersion
    ensures FlightOk(v, m, w.flights[m])
  {
    hide Later, NamedFor;
    assert FlightOk(w, m, w.flights[m]);
  }

  lemma ObjectsStay(w: World, v: World)
    requires ObjectsOk(w)
    requires v.objects == w.objects && v.keys == w.keys && v.nextUid == w.nextUid && v.nextVersion == w.nextVersion
    ensures ObjectsOk(v)
  {
  }

  lemma LaterIsTransitive(j: Job, k: Job, l: Job)
    requires Later(j, k) && Later(k, l)
    ensures Later(j, l)
  {
  }

  lemma RunJobKeeps(w: World, n: string, status: JobStatus)
    requires StoreInv(w)
    ensures StoreInv(RunJobStep(w, n, status))
  {
    hide Later, NamedFor, IsSucceeded, IsFailed, ObjectsOk, FlightOk;
    var v := RunJobStep(w, n, status);
    if v != w {
      ObjectsStay(w, v);
      forall m | m in w.flights
        ensures FlightOk(v, m, w.flights[m])
      {
        FlightSeesJobRun(w, v, n, m);
      }
    }
  }

  lemma FlightSeesJobRun(w: World, v: World, n: string, m: string)
    requires FlightsOk(w) && m in w.flights && n in w.jobs && n in v.jobs
    requires v.jobs == w.jobs[n := v.jobs[n]] && Later(w.jobs[n], v.jobs[n]) && v.jobs[n].owners == w.jobs[n].owners
    requires v.objects == w.objects && v.keys == w.keys && v.nextVersion == w.nextVersion
    ensures FlightOk(v, m, w.flights[m])
  {
    hide Later, NamedFor;
    var f := w.flights[m];
    assert FlightOk(w, m, f);
    if f.Found? && f.job.Some? && f.job.value.name == n && !IsForeign(w.jobs[n]) {
      LaterIsTransitive(f.job.value, w.jobs[n], v.jobs[n]);
    }
  }

  // ---------- The operator ----------

  lemma FetchKeeps(w: World, n: string)
    requires StoreInv(w)
    ensures StoreInv(FetchStep(w, n))
  {
    hide Later, NamedFor;
  }

  lemma LookKeeps(p: Params, w: World, n: string, a: Answers, items: seq<Job>)
    requires StoreInv(w)
    ensures StoreInv(LookStep(p, w, n, a, items))
  {
    hide EarlyResult, Stopped, ObjectsOk, FlightOk, FirstOwned, Lists, JobsOk, OneJobEach;
    var v := LookStep(p, w, n, a, items);
    if v != w {
      ObjectsStay(w, v);
      SameJobsOk(w, v);
      assert v == w.(flights := w.flights[n := v.flights[n]]);
      forall m | m in v.flights
        ensures FlightOk(v, m, v.flights[m])
      {
        assert FlightOk(w, m, w.flights[m]);
        FlightIgnoresOthers(w, v, m, w.flights[m]);
        if m == n {
          LookedUp(w, n, items);
          FlightIgnoresOthers(w, v, n, v.flights[n]);
          if v.flights[n].Done? {
            FlightIgnoresResult(w, n, w.flights[n], v.flights[n]);
          }
        }
      }
    }
  }

  /** What is known about one reconcile does not depend on the others. */
  lemma FlightIgnoresOthers(w: World, v: World, m: string, f: Flight)
    requires v.jobs == w.jobs && v.objects == w.objects && v.keys == w.keys && v.nextVersion == w.nextVersion
    ensures FlightOk(v, m, f) <==> FlightOk(w, m, f)
  {
    hide Later, NamedFor;
  }

  lemma FlightIgnoresResult(w: World, n: string, f: Flight, g: Flight)
    requires FlightOk(w, n, f) && g.Done? && g.o == f.o
    ensures FlightOk(w, n, g)
  {
    hide OwnsNone, StillOwn, NamedFor;
  }

  /** The Job that the lookup finds, if any, is the object's own. */
  lemma LookedUp(w: World, n: string, items: seq<Job>)
    requires StoreInv(w) && n in w.flights && Lists(items, w.jobs)
    ensures FlightOk(w, n, Found(w.flights[n].o, FirstOwned(items, w.flights[n].o.uid)))
  {
    hide NamedFor, IsSucceeded, IsFailed, ObjectsOk, OneJobEach;
    var o := w.flights[n].o;
    assert FlightOk(w, n, w.flights[n]);
    var found := FirstOwned(items, o.uid);
    if found.None? {
      forall m | m in w.jobs
        ensures !OwnedBy(w.jobs[m], o.uid)
      {
        assert w.jobs[m] in items;
      }
    } else {
      assert found.value in items;
    }
  }

  /** A reconcile moves on with the object that it read. */
  lemma FlightMoves(w: World, v: World, n: string)
    requires StoreInv(w)
    requires v.jobs == w.jobs && v.objects == w.objects && v.keys == w.keys
    requires v.nextUid == w.nextUid && v.nextVersion == w.nextVersion
    requires n in w.flights && n in v.flights && v.flights == w.flights[n := v.flights[n]]
    requires v.flights[n].o == w.flights[n].o
    requires v.flights[n].Done? || (v.flights[n].Cleared? && OwnsNone(w, v.flights[n].o.uid))
    ensures StoreInv(v)
  {
    hide Later, NamedFor, OwnedBy, IsForeign;
    forall m | m in v.flights
      ensures FlightOk(v, m, v.flights[m])
    {
      assert FlightOk(w, m, w.flights[m]);
    }
  }

  lemma ActKeeps(p: Params, w: World, n: string, a: Answers)
    requires StoreInv(w)
    ensures StoreInv(ActStep(p, w, n, a))
  {
    hide StoreInv, OwnsNone, PreChecksResult, SyncResult, Stopped, InProgress, ExpectedName, IsRunning;
    if n in w.flights && w.flights[n].Found? {
      var v := ActStep(p, w, n, a);
      assert v.flights == w.flights[n := v.flights[n]];
      FoundNone(w, n);
      if v.jobs != w.jobs {
        var u := w.(jobs := v.jobs);
        FewerJobsKeep(w, u, w.flights[n].job.value.name);
        FlightMoves(u, v, n);
      } else {
        FlightMoves(w, v, n);
      }
    }
  }

  lemma FoundNone(w: World, n: string)
    requires StoreInv(w) && n in w.flights && w.flights[n].Found?
    ensures w.flights[n].job.None? ==> OwnsNone(w, w.flights[n].o.uid)
  {
    hide ObjectsOk, JobsOk, OneJobEach, OwnsNone;
    assert FlightOk(w, n, w.flights[n]);
  }

  lemma CreateJobKeeps(p: Params, w: World, n: string, a: Answers)
    requires StoreInv(w)
    ensures StoreInv(CreateJobStep(p, w, n, a))
  {
    hide StoreInv, Stopped, InProgress, JobName;
    if n in w.flights && w.flights[n].Cleared? {
      var v := CreateJobStep(p, w, n, a);
      assert v.flights == w.flights[n := v.flights[n]];
      if v.jobs == w.jobs {
        FlightMoves(w, v, n);
      } else {
        var u := w.(flights := v.flights);
        ClearedOwnsNone(w, n);
        FlightMoves(w, u, n);
        JobAppears(p, u, v, n);
      }
    }
  }

  lemma ClearedOwnsNone(w: World, n: string)
    requires StoreInv(w) && n in w.flights && w.flights[n].Cleared?
    ensures OwnsNone(w, w.flights[n].o.uid)
  {
    hide ObjectsOk, JobsOk, OneJobEach, OwnsNone;
    assert FlightOk(w, n, w.flights[n]);
  }

  /** A Job appears for an object that owns none. */
  ghost predicate Appears(p: Params, w: World, v: World, n: string) {
    && n in w.flights && w.flights[n].Done? && OwnsNone(w, w.flights[n].o.uid)
    && NewJob(p, w.flights[n].o).name !in w.jobs
    && v.jobs == w.jobs[NewJob(p, w.flights[n].o).name := NewJob(p, w.flights[n].o)]
    && v.objects == w.objects && v.keys == w.keys && v.nextUid == w.nextUid && v.nextVersion == w.nextVersion
    && v.flights == w.flights
  }

  lemma JobAppears(p: Params, w: World, v: World, n: string)
    requires StoreInv(w) && Appears(p, w, v, n)
    ensures StoreInv(v)
  {
    hide Later, NamedFor, ExpectedName, ObjectsOk, FlightOk;
    var o := w.flights[n].o;
    ObjectsStay(w, v);
    assert FlightOk(w, n, w.flights[n]);
    NewJobIsNamed(p, o);
    assert o.uid in w.keys && w.keys[o.uid] == o.name && o.uid.UpgradeUid? by {
      assert o.name == n by { FlightBasics(w, n, w.flights[n]); }
      FlightBasics(w, n, w.flights[n]);
    }
    forall m | m in w.flights
      ensures FlightOk(v, m, w.flights[m])
    {
      FlightSeesNewJob(p, w, v, n, m);
    }
  }

  lemma FlightBasics(w: World, n: string, f: Flight)
    requires FlightOk(w, n, f)
    ensures f.o.name == n && f.o.uid.UpgradeUid? && f.o.uid in w.keys && w.keys[f.o.uid] == n
  {
  }

  lemma FlightSeesNewJob(p: Params, w: World, v: World, n: string, m: string)
    requires FlightsOk(w) && Appears(p, w, v, n) && m in w.flights
    ensures FlightOk(v, m, w.flights[m])
  {
    hide Later, NamedFor, ExpectedName;
    var o, f := w.flights[n].o, w.flights[m];
    assert FlightOk(w, n, w.flights[n]) && FlightOk(w, m, f);
    NewJobIsNamed(p, o);
    if m != n && f.Found? && f.job.Some? && f.job.value.name == NewJob(p, o).name {
      NamesDiffer(f.job.value.name, n, m);
    }
  }

  lemma NewJobIsNamed(p: Params, o: DBUpgrade)
    ensures NamedFor(ExpectedName(p, o), o.name)
  {
  }

  lemma NamesDiffer(jobName: string, n: string, m: string)
    requires NamedFor(jobName, n) && NamedFor(jobName, m)
    ensures n == m
  {
    var h: SpecHash :| jobName == JobName(n, h);
    var i: SpecHash :| jobName == JobName(m, i);
    JobNameIsInjective(n, h, m, i);
  }

  lemma WriteKeeps(w: World, n: string, a: Answers)
    requires StoreInv(w)
    ensures StoreInv(WriteStep(w, n, a))
  {
    hide NewStatus, JobsOk, OneJobEach, FlightOk;
    var v := WriteStep(w, n, a);
    if v != w {
      SameJobsOk(w, v);
      forall m | m in v.flights
        ensures FlightOk(v, m, v.flights[m])
      {
        FlightSeesWrite(w, v, n, m);
      }
    }
  }

  lemma FlightSeesWrite(w: World, v: World, n: string, m: string)
    requires FlightsOk(w) && m in w.flights && v.jobs == w.jobs && v.keys == w.keys && v.nextVersion >= w.nextVersion
    requires v.objects == w.objects ||
      (n in w.objects && n in v.objects && m != n && v.objects == w.objects[n := v.objects[n]])
    ensures FlightOk(v, m, w.flights[m])
  {
    hide NamedFor, OwnsNone, StillOwn;
    assert FlightOk(w, m, w.flights[m]);
    SameJobs(w, v, w.flights[m]);
  }

  lemma CrashKeeps(w: World, n: string)
    requires StoreInv(w)
    ensures StoreInv(w.(flights := w.flights - {n}))
  {
    hide Later, NamedFor;
    var v := w.(flights := w.flights - {n});
    forall m | m in v.flights
      ensures FlightOk(v, m, v.flights[m])
    {
      assert FlightOk(w, m, w.flights[m]);
    }
  }

  lemma StoreInvStep(p: Params, w: World, action: Action)
    requires StoreInv(w)
    ensures StoreInv(Step(p, w, action))
  {
    hide StoreInv, CreateStep, UpdateStep, CollectStep, ForeignCreateStep, ForeignDeleteStep, RunJobStep, FetchStep,
         LookStep, ActStep, CreateJobStep, WriteStep;
    match action
    case CreateObject(n, spec) => CreateKeeps(p, w, n, spec);
    case UpdateObject(n, spec) => UpdateKeeps(p, w, n, spec);
    case DeleteObject(n) => DeleteKeeps(w, n);
    case CollectJob(n) => CollectKeeps(w, n);
    case ForeignCreate(j) => ForeignCreateKeeps(w, j);
    case ForeignDelete(n) => ForeignDeleteKeeps(w, n);
    case RunJob(n, status) => RunJobKeeps(w, n, status);
    case Tick(span) => TickKeeps(w, span);
    case Fetch(n) => FetchKeeps(w, n);
    case Look(n, a, items) => LookKeeps(p, w, n, a, items);
    case Act(n, a) => ActKeeps(p, w, n, a);
    case Create(n, a) => CreateJobKeeps(p, w, n, a);
    case Write(n, a) => WriteKeeps(w, n, a);
    case Crash(n) => CrashKeeps(w, n);
  }

  lemma CollectKeeps(w: World, n: string)
    requires StoreInv(w)
    ensures StoreInv(CollectStep(w, n))
  {
    hide StoreInv;
    if CollectStep(w, n) != w {
      FewerJobsKeep(w, CollectStep(w, n), n);
    }
  }

  lemma ForeignDeleteKeeps(w: World, n: string)
    requires StoreInv(w)
    ensures StoreInv(ForeignDeleteStep(w, n))
  {
    hide StoreInv;
    if ForeignDeleteStep(w, n) != w {
      FewerJobsKeep(w, ForeignDeleteStep(w, n), n);
    }
  }

  lemma TickKeeps(w: World, span: nat)
    requires StoreInv(w)
    ensures StoreInv(w.(now := w.now + span))
  {
    hide Later, NamedFor;
    var v := w.(now := w.now + span);
    forall m | m in v.flights
      ensures FlightOk(v, m, v.flights[m])
    {
      assert FlightOk(w, m, w.flights[m]);
    }
  }

  /** In every interleaving, from an empty store on. */
  lemma {:induction false} StoreInvAlways(p: Params, w: World, actions: seq<Action>)
    requires StoreInv(w)
    ensures StoreInv(Run(p, w, actions))
    decreases |actions|
  {
    hide StoreInv, Step;
    if actions != [] {
      StoreInvStep(p, w, actions[0]);
      StoreInvAlways(p, Step(p, w, actions[0]), actions[1..]);
    }
  }

  lemma StoreInvFromStart(p: Params, actions: seq<Action>)
    ensures StoreInv(Run(p, INIT, actions))
  {
    StoreInvAlways(p, INIT, actions);
  }

  // ---------- What it gives ----------

  /** One migration at a time: in every run each DBUpgrade owns at most one Job, so whatever order the Jobs
      are listed in, the lookup finds the same one. */
  lemma LookupIsUnambiguous(p: Params, actions: seq<Action>, items: seq<Job>, others: seq<Job>, uid: Uid)
    requires uid.UpgradeUid?
    requires Lists(items, Run(p, INIT, actions).jobs) && Lists(others, Run(p, INIT, actions).jobs)
    ensures OneJobEach(Run(p, INIT, actions))
    ensures FirstOwned(items, uid) == FirstOwned(others, uid)
  {
    hide ObjectsOk, FlightsOk;
    StoreInvFromStart(p, actions);
    var w := Run(p, INIT, actions);
    var a, b := FirstOwned(items, uid), FirstOwned(others, uid);
    assert a.Some? ==> a.value in items && a.value in others;
    assert b.Some? ==> b.value in others && b.value in items;
    if a.Some? && b.Some? {
      assert w.jobs[a.value.name] == a.value && w.jobs[b.value.name] == b.value;
    }
  }

  /** A status computed from an object that has changed since never lands: in every run, a write that
      lands finds the object exactly as the reconcile read it. */
  lemma StaleStatusNeverLands(p: Params, actions: seq<Action>, n: string, a: Answers)
    requires Lands(Run(p, INIT, actions), n, a)
    ensures Run(p, INIT, actions).objects[n] == Run(p, INIT, actions).flights[n].o
  {
    hide ObjectsOk, JobsOk, OneJobEach;
    StoreInvFromStart(p, actions);
    var w := Run(p, INIT, actions);
    assert FlightOk(w, n, w.flights[n]);
  }
}
