/** Why things happened, in every run: each Job was created for a spec that was stored, after its
    pre-checks passed; Ready means that the Job of that very spec completed and was checked. */
module History {
  import opened Types
  import opened Conditions
  import opened Decision
  import opened Protocol
  import opened StoreSafety
  import opened StatusSafety
  import Semver
  import VersionGate
  import MetricGate

  // ---------- What the history records ----------

  /** The object was stored with this generation and spec. */
  ghost predicate Recorded(log: seq<Event>, o: DBUpgrade) {
    Stored(o.uid, o.generation, o.spec) in log
  }

  ghost predicate HasCreated(log: seq<Event>, uid: Uid, jobName: string) {
    exists e :: e in log && e.JobCreated? && e.o.uid == uid && e.job.name == jobName
  }

  ghost predicate HasCompleted(log: seq<Event>, uid: Uid, jobName: string) {
    exists e :: e in log && e.JobCompleted? && OwnedBy(e.job, uid) && e.job.name == jobName &&
                JobCondition(JobCompleteCondition, ConditionTrue) in e.job.status.conditions
  }

  /** A reconcile read the generation with this number and found its migration complete. */
  ghost predicate HasSuccess(log: seq<Event>, uid: Uid, name: string, generation: int) {
    exists e :: e in log && e.Synced? && e.o.uid == uid && e.o.name == name && e.o.generation == generation &&
                e.result.ready
  }

  /** What is known about a Job that a DBUpgrade owns. */
  ghost predicate JobRecorded(log: seq<Event>, uid: Uid, job: Job) {
    HasCreated(log, uid, job.name) && (IsSucceeded(job) ==> HasCompleted(log, uid, job.name))
  }

  /** Each event has its reasons. */
  ghost predicate Justified(p: Params, log: seq<Event>, e: Event) {
    match e
    case Stored(_, _, _) => true
    case JobCreated(o, job, a) => Recorded(log, o) && job == NewJob(p, o) && PreGatesOpen(p, o.spec, a)
    case JobDeleted(o, seen, victim) =>
      && Recorded(log, o)
      && !IsRunning(seen) && seen.name != ExpectedName(p, o) && seen.owners == [o.uid]
      && (IsForeign(victim) || Later(seen, victim))
    case JobCollected(_) => true
    case JobCompleted(_) => true
    case Synced(o, job, now, a, r) =>
      && Recorded(log, o)
      && r == SyncResult(p, o, job, now, a)
      && job.name == ExpectedName(p, o) && job.owners == [o.uid]
      && JobRecorded(log, o.uid, job)
    case Landed(o, r) => Recorded(log, o) && (r.ready ==> HasSuccess(log, o.uid, o.name, o.generation))
  }

  ghost predicate LogOk(p: Params, log: seq<Event>) {
    forall e | e in log :: Justified(p, log, e)
  }

  ghost predicate ObjectsRecorded(w: World) {
    forall n | n in w.objects ::
      && Recorded(w.log, w.objects[n])
      && (IsTrue(w.objects[n].status.conditions, Ready) ==>
            HasSuccess(w.log, w.objects[n].uid, n, w.objects[n].status.observedGeneration))
  }

  ghost predicate JobsRecorded(w: World) {
    forall n, u | n in w.jobs && OwnedBy(w.jobs[n], u) && u.UpgradeUid? :: JobRecorded(w.log, u, w.jobs[n])
  }

  ghost predicate FlightRecorded(p: Params, log: seq<Event>, f: Flight) {
    && Recorded(log, f.o)
    && (f.Found? && f.job.Some? ==> JobRecorded(log, f.o.uid, f.job.value))
    && (f.Cleared? ==> PreGatesOpen(p, f.o.spec, f.answers))
    && (f.Done? && f.result.ready ==> HasSuccess(log, f.o.uid, f.o.name, f.o.generation))
  }

  ghost predicate FlightsRecorded(p: Params, w: World) {
    forall n | n in w.flights :: FlightRecorded(p, w.log, w.flights[n])
  }

  ghost predicate HistoryInv(p: Params, w: World) {
    LogOk(p, w.log) && ObjectsRecorded(w) && JobsRecorded(w) && FlightsRecorded(p, w)
  }

  // ---------- The history only grows ----------

  ghost predicate Grows(log: seq<Event>, more: seq<Event>) {
    forall e | e in log :: e in more
  }

  lemma JustifiedStays(p: Params, log: seq<Event>, more: seq<Event>, e: Event)
    requires Justified(p, log, e) && Grows(log, more)
    ensures Justified(p, more, e)
  {
    hide ExpectedName, SyncResult, PreGatesOpen, IsSucceeded, IsRunning, Later, NewJob;
  }

  lemma FlightRecordedStays(p: Params, log: seq<Event>, more: seq<Event>, f: Flight)
    requires FlightRecorded(p, log, f) && Grows(log, more)
    ensures FlightRecorded(p, more, f)
  {
    hide PreGatesOpen, IsSucceeded;
  }

  /** What was recorded of the world stays recorded as the history grows by at most one event. */
  lemma WorldRecordedStays(p: Params, w: World, more: seq<Event>)
    requires HistoryInv(p, w)
    requires more == w.log || (|more| > 0 && more[..|more| - 1] == w.log && Justified(p, more, more[|more| - 1]))
    ensures HistoryInv(p, w.(log := more))
  {
    hide Justified, FlightRecorded, IsSucceeded, IsTrue;
    var v := w.(log := more);
    assert Grows(w.log, more) by {
      assert more != w.log ==> more == w.log + [more[|more| - 1]];
    }
    forall e | e in more
      ensures Justified(p, more, e)
    {
      if e in w.log {
        JustifiedStays(p, w.log, more, e);
      }
    }
    forall n | n in w.flights
      ensures FlightRecorded(p, more, w.flights[n])
    {
      FlightRecordedStays(p, w.log, more, w.flights[n]);
    }
  }

  lemma FlightChanges(p: Params, w: World, n: string, f: Flight)
    requires HistoryInv(p, w) && FlightRecorded(p, w.log, f)
    ensures HistoryInv(p, w.(flights := w.flights[n := f]))
  {
    hide LogOk, FlightRecorded, JobRecorded, HasSuccess;
  }

  // ---------- Users ----------

  /** An object is stored whose spec and status are recorded. */
  lemma ObjectChanges(p: Params, w: World, v: World, n: string)
    requires HistoryInv(p, w)
    requires n in v.objects && v.objects == w.objects[n := v.objects[n]]
    requires v.jobs == w.jobs && v.flights == w.flights && v.log == w.log
    requires Recorded(w.log, v.objects[n])
    requires IsTrue(v.objects[n].status.conditions, Ready) ==>
      HasSuccess(w.log, v.objects[n].uid, n, v.objects[n].status.observedGeneration)
    ensures HistoryInv(p, v)
  {
    hide LogOk, FlightRecorded, JobRecorded, HasSuccess, IsTrue, Recorded;
  }

  lemma CreateIsRecorded(p: Params, w: World, n: string, spec: Spec)
    requires HistoryInv(p, w)
    ensures HistoryInv(p, CreateStep(p, w, n, spec))
  {
    hide HistoryInv, HasSuccess;
    var v := CreateStep(p, w, n, spec);
    if v != w {
      assert v.log[..|v.log| - 1] == w.log;
      WorldRecordedStays(p, w, v.log);
      ObjectChanges(p, w.(log := v.log), v, n);
    }
  }

  lemma UpdateIsRecorded(p: Params, w: World, n: string, spec: Spec)
    requires HistoryInv(p, w)
    ensures HistoryInv(p, UpdateStep(p, w, n, spec))
  {
    hide HistoryInv, Recorded, HasSuccess, IsTrue;
    var v := UpdateStep(p, w, n, spec);
    if v != w {
      assert v.log != w.log ==> v.log[..|v.log| - 1] == w.log;
      ObjectIsRecorded(p, w, n, v.objects[n], v.log);
      WorldRecordedStays(p, w, v.log);
      ObjectChanges(p, w.(log := v.log), v, n);
    }
  }

  /** The status of an object is as well recorded as it was, and so is its spec, if it is the same or was
      recorded last. */
  lemma ObjectIsRecorded(p: Params, w: World, n: string, o: DBUpgrade, more: seq<Event>)
    requires HistoryInv(p, w) && n in w.objects && Grows(w.log, more)
    requires o.uid == w.objects[n].uid && o.status == w.objects[n].status
    requires
      || (o.spec == w.objects[n].spec && o.generation == w.objects[n].generation)
      || Stored(o.uid, o.generation, o.spec) in more
    ensures Recorded(more, o)
    ensures IsTrue(o.status.conditions, Ready) ==> HasSuccess(more, o.uid, n, o.status.observedGeneration)
  {
    hide LogOk, JobsRecorded, FlightsRecorded, IsTrue;
  }

  // ---------- The rest of the cluster ----------

  lemma JobsLeaveIsRecorded(p: Params, w: World, n: string)
    requires HistoryInv(p, w)
    ensures HistoryInv(p, w.(jobs := w.jobs - {n}))
    ensures HistoryInv(p, CollectStep(w, n))
    ensures HistoryInv(p, ForeignDeleteStep(w, n))
  {
    hide LogOk, FlightRecorded, JobRecorded, HasSuccess, IsTrue;
    var v := CollectStep(w, n);
    if v != w {
      assert v.log[..|v.log| - 1] == w.log;
      WorldRecordedStays(p, w, v.log);
    }
  }

  lemma ForeignCreateIsRecorded(p: Params, w: World, j: Job)
    requires HistoryInv(p, w)
    ensures HistoryInv(p, ForeignCreateStep(w, j))
  {
    hide LogOk, FlightRecorded, JobRecorded, HasSuccess, IsTrue;
  }

  lemma RunJobIsRecorded(p: Params, w: World, n: string, status: JobStatus)
    requires StoreInv(w) && HistoryInv(p, w)
    ensures HistoryInv(p, RunJobStep(w, n, status))
  {
    hide StoreInv, HistoryInv, JobRecorded, IsSucceeded, IsFailed;
    var v := RunJobStep(w, n, status);
    if v != w {
      assert v.log != w.log ==> v.log[..|v.log| - 1] == w.log;
      WorldRecordedStays(p, w, v.log);
      forall u | OwnedBy(v.jobs[n], u) && u.UpgradeUid?
        ensures JobRecorded(v.log, u, v.jobs[n])
      {
        JobRunIsRecorded(p, w, w.(log := v.log), n, v.jobs[n], u);
      }
      JobChanges(p, w.(log := v.log), n, v.jobs[n]);
      assert v == w.(log := v.log).(jobs := w.jobs[n := v.jobs[n]]);
    }
  }

  lemma JobChanges(p: Params, w: World, n: string, job: Job)
    requires HistoryInv(p, w)
    requires forall u | OwnedBy(job, u) && u.UpgradeUid? :: JobRecorded(w.log, u, job)
    ensures HistoryInv(p, w.(jobs := w.jobs[n := job]))
  {
    hide LogOk, FlightRecorded, HasSuccess, IsTrue, Recorded, JobRecorded;
  }

  /** A Job that was recorded is so when it has run on, if the history says that it has completed. */
  lemma JobRunIsRecorded(p: Params, w: World, v: World, n: string, job: Job, u: Uid)
    requires StoreInv(w) && HistoryInv(p, v) && v == w.(log := v.log)
    requires n in w.jobs && job.name == w.jobs[n].name && job.owners == w.jobs[n].owners
    requires IsSucceeded(job) && !IsSucceeded(w.jobs[n]) ==> JobCompleted(job) in v.log
    requires OwnedBy(job, u) && u.UpgradeUid?
    ensures JobRecorded(v.log, u, job)
  {
    hide ObjectsOk, OneJobEach, FlightsOk, LogOk, ObjectsRecorded, FlightsRecorded, HasCreated, IsSucceeded;
    assert JobRecorded(v.log, u, w.jobs[n]);
    ConditionsDecide(job);
  }

  // ---------- The operator ----------

  lemma FetchIsRecorded(p: Params, w: World, n: string)
    requires HistoryInv(p, w)
    ensures HistoryInv(p, FetchStep(w, n))
  {
    if n in w.objects && n !in w.flights {
      FlightChanges(p, w, n, Fetched(w.objects[n]));
    }
  }

  lemma LookIsRecorded(p: Params, w: World, n: string, a: Answers, items: seq<Job>)
    requires StoreInv(w) && HistoryInv(p, w)
    ensures HistoryInv(p, LookStep(p, w, n, a, items))
  {
    hide ObjectsOk, JobsOk, OneJobEach, OwnsNone, StillOwn, LogOk, ObjectsRecorded, IsSucceeded, HasCreated;
    var v := LookStep(p, w, n, a, items);
    if v != w {
      assert FlightOk(w, n, w.flights[n]);
      assert FlightRecorded(p, w.log, w.flights[n]);
      var o := w.flights[n].o;
      var found := FirstOwned(items, o.uid);
      if found.Some? {
        assert found.value in items;
        assert JobRecorded(w.log, o.uid, w.jobs[found.value.name]);
      }
      EarlyIsNotReady(o.spec, a);
      FlightChanges(p, w, n, v.flights[n]);
      assert v == w.(flights := w.flights[n := v.flights[n]]);
    }
  }

  lemma EarlyIsNotReady(spec: Spec, a: Answers)
    ensures EarlyResult(spec, a).Some? ==> !EarlyResult(spec, a).value.ready
  {
  }

  lemma ActIsRecorded(p: Params, w: World, n: string, a: Answers)
    requires StoreInv(w) && HistoryInv(p, w)
    ensures HistoryInv(p, ActStep(p, w, n, a))
  {
    hide StoreInv, HistoryInv, PreChecksResult, PreGatesOpen, SyncResult, ExpectedName, DeleteJobStep, IsRunning,
         JobRecorded, HasSuccess, Recorded;
    if n in w.flights && w.flights[n].Found? {
      var Found(o, found) := w.flights[n];
      FlightFacts(p, w, n);
      if found.None? {
        PreChecksMeaning(p, o.spec, a);
        FlightChanges(p, w, n, ActStep(p, w, n, a).flights[n]);
        assert ActStep(p, w, n, a) == w.(flights := w.flights[n := ActStep(p, w, n, a).flights[n]]);
      } else if found.value.name == ExpectedName(p, o) {
        SyncIsRecorded(p, w, n, a);
      } else if IsRunning(found.value) {
        FlightChanges(p, w, n, Done(o, InProgress(Initializing, MigrationInProgress, 10)));
      } else {
        DeleteJobIsRecorded(p, w, n, a);
      }
    }
  }

  lemma FlightFacts(p: Params, w: World, n: string)
    requires StoreInv(w) && HistoryInv(p, w) && n in w.flights && w.flights[n].Found?
    ensures
      var Found(o, found) := w.flights[n];
      && Recorded(w.log, o)
      && o.name == n
      && (found.Some? ==>
            && found.value.owners == [o.uid]
            && JobRecorded(w.log, o.uid, found.value)
            && StillOwn(w, o, found.value))
  {
    hide ObjectsOk, JobsOk, OneJobEach, OwnsNone, StillOwn, LogOk, ObjectsRecorded, JobsRecorded, JobRecorded,
         Recorded;
    assert FlightOk(w, n, w.flights[n]);
    assert FlightRecorded(p, w.log, w.flights[n]);
  }

  lemma SyncIsRecorded(p: Params, w: World, n: string, a: Answers)
    requires StoreInv(w) && HistoryInv(p, w)
    requires n in w.flights && w.flights[n].Found? && w.flights[n].job.Some?
    requires w.flights[n].job.value.name == ExpectedName(p, w.flights[n].o)
    ensures HistoryInv(p, ActStep(p, w, n, a))
  {
    hide StoreInv, HistoryInv, SyncResult, ExpectedName, HasCreated, HasCompleted, IsSucceeded, PreGatesOpen;
    var Found(o, found) := w.flights[n];
    var v := ActStep(p, w, n, a);
    var e := Synced(o, found.value, w.now, a, SyncResult(p, o, found.value, w.now, a));
    FlightFacts(p, w, n);
    assert v.log == w.log + [e] && v.log[..|v.log| - 1] == w.log && e in v.log;
    JobRecordedStays(w.log, v.log, o.uid, found.value);
    WorldRecordedStays(p, w, v.log);
    FlightChanges(p, w.(log := v.log), n, v.flights[n]);
    assert v == w.(log := v.log, flights := w.flights[n := v.flights[n]]);
  }

  lemma JobRecordedStays(log: seq<Event>, more: seq<Event>, uid: Uid, job: Job)
    requires JobRecorded(log, uid, job) && Grows(log, more)
    ensures JobRecorded(more, uid, job)
  {
    hide IsSucceeded;
  }

  lemma DeleteJobIsRecorded(p: Params, w: World, n: string, a: Answers)
    requires StoreInv(w) && HistoryInv(p, w)
    requires n in w.flights && w.flights[n].Found? && w.flights[n].job.Some?
    requires w.flights[n].job.value.name != ExpectedName(p, w.flights[n].o) && !IsRunning(w.flights[n].job.value)
    ensures HistoryInv(p, DeleteJobStep(w, n, w.flights[n].o, w.flights[n].job.value, a))
  {
    hide StoreInv, HistoryInv, ExpectedName, HasCreated, HasCompleted, IsSucceeded, IsFailed, IsRunning,
         PreGatesOpen, Later;
    var Found(o, found) := w.flights[n];
    var v := DeleteJobStep(w, n, o, found.value, a);
    FlightFacts(p, w, n);
    assert Recorded(v.log, o);
    assert v.log != w.log ==> v.log[..|v.log| - 1] == w.log;
    WorldRecordedStays(p, w, v.log);
    FlightChanges(p, w.(log := v.log), n, v.flights[n]);
    var u := w.(log := v.log, flights := w.flights[n := v.flights[n]]);
    if v.jobs != u.jobs {
      JobsLeaveIsRecorded(p, u, found.value.name);
      assert v == u.(jobs := u.jobs - {found.value.name});
    } else {
      assert v == u;
    }
  }

  lemma CreateJobIsRecorded(p: Params, w: World, n: string, a: Answers)
    requires HistoryInv(p, w)
    ensures HistoryInv(p, CreateJobStep(p, w, n, a))
  {
    hide HistoryInv, ExpectedName, HasCompleted, IsFailed, PreGatesOpen;
    if n in w.flights && w.flights[n].Cleared? {
      var Cleared(o, answers) := w.flights[n];
      var v := CreateJobStep(p, w, n, a);
      ClearedFacts(p, w, n);
      assert Recorded(v.log, o);
      assert v.log != w.log ==> v.log[..|v.log| - 1] == w.log;
      WorldRecordedStays(p, w, v.log);
      FlightChanges(p, w.(log := v.log), n, v.flights[n]);
      var u := w.(log := v.log, flights := w.flights[n := v.flights[n]]);
      if v.jobs != u.jobs {
        assert JobCreated(o, NewJob(p, o), answers) in v.log;
        JobArrivesIsRecorded(p, u, NewJob(p, o), o.uid);
        assert v == u.(jobs := u.jobs[NewJob(p, o).name := NewJob(p, o)]);
      } else {
        assert v == u;
      }
    }
  }

  lemma ClearedFacts(p: Params, w: World, n: string)
    requires HistoryInv(p, w) && n in w.flights && w.flights[n].Cleared?
    ensures Recorded(w.log, w.flights[n].o) && PreGatesOpen(p, w.flights[n].o.spec, w.flights[n].answers)
  {
    hide LogOk, ObjectsRecorded, JobsRecorded, JobRecorded, Recorded, PreGatesOpen;
    assert FlightRecorded(p, w.log, w.flights[n]);
  }

  lemma JobArrivesIsRecorded(p: Params, w: World, job: Job, uid: Uid)
    requires HistoryInv(p, w)
    requires job.owners == [uid] && HasCreated(w.log, uid, job.name) && !IsSucceeded(job)
    ensures HistoryInv(p, w.(jobs := w.jobs[job.name := job]))
  {
    hide LogOk, Recorded, HasSuccess, IsTrue, FlightRecorded, HasCreated, HasCompleted, IsSucceeded;
  }

  lemma WriteIsRecorded(p: Params, w: World, n: string, a: Answers)
    requires StoreInv(w) && StatusInv(w) && HistoryInv(p, w)
    ensures HistoryInv(p, WriteStep(w, n, a))
  {
    hide StoreInv, StatusInv, HistoryInv, JobRecorded, HasSuccess, NewStatus, IsTrue, PreGatesOpen, Recorded;
    if n in w.flights && w.flights[n].Done? {
      var v := WriteStep(w, n, a);
      FlightEnds(p, w, n);
      if Lands(w, n, a) {
        LandingIsRecorded(p, w, n, a);
        FlightEnds(p, w.(log := v.log), n);
        ObjectChanges(p, w.(log := v.log, flights := v.flights), v, n);
      }
    }
  }

  lemma FlightEnds(p: Params, w: World, n: string)
    requires HistoryInv(p, w)
    ensures HistoryInv(p, w.(flights := w.flights - {n}))
  {
    hide LogOk, FlightRecorded, JobRecorded, HasSuccess;
  }

  /** A status that lands is recorded, and with it what the object says. */
  lemma LandingIsRecorded(p: Params, w: World, n: string, a: Answers)
    requires StoreInv(w) && StatusInv(w) && HistoryInv(p, w) && Lands(w, n, a)
    ensures
      var v := WriteStep(w, n, a);
      && HistoryInv(p, w.(log := v.log))
      && Recorded(v.log, v.objects[n])
      && (IsTrue(v.objects[n].status.conditions, Ready) ==>
            HasSuccess(v.log, v.objects[n].uid, n, v.objects[n].status.observedGeneration))
  {
    hide StoreInv, StatusInv, LogOk, ObjectsRecorded, JobsRecorded, HasSuccess, NewStatus, IsTrue, PreGatesOpen;
    var Done(o, r) := w.flights[n];
    var v := WriteStep(w, n, a);
    WriteKeepsStatus(w, n, a);
    assert FlightRecorded(p, w.log, w.flights[n]);
    assert v.log == w.log + [Landed(o, r)] && v.log[..|v.log| - 1] == w.log && Grows(w.log, v.log);
    FlightRecordedStays(p, w.log, v.log, w.flights[n]);
    WorldRecordedStays(p, w, v.log);
    OwnName(w, n);
  }

  lemma OwnName(w: World, n: string)
    requires StoreInv(w) && n in w.flights
    ensures w.flights[n].o.name == n
  {
    hide ObjectsOk, JobsOk, OneJobEach, OwnsNone, StillOwn;
    assert FlightOk(w, n, w.flights[n]);
  }

  lemma HistoryInvStep(p: Params, w: World, action: Action)
    requires StoreInv(w) && StatusInv(w) && HistoryInv(p, w)
    ensures HistoryInv(p, Step(p, w, action))
  {
    hide StoreInv, StatusInv, CreateStep, UpdateStep, CollectStep, ForeignCreateStep, ForeignDeleteStep, RunJobStep,
         FetchStep, LookStep, ActStep, CreateJobStep, WriteStep, LogOk, FlightRecorded, JobRecorded, HasSuccess;
    match action
    case CreateObject(n, spec) => CreateIsRecorded(p, w, n, spec);
    case UpdateObject(n, spec) => UpdateIsRecorded(p, w, n, spec);
    case DeleteObject(n) =>
    case CollectJob(n) => JobsLeaveIsRecorded(p, w, n);
    case ForeignCreate(j) => ForeignCreateIsRecorded(p, w, j);
    case ForeignDelete(n) => JobsLeaveIsRecorded(p, w, n);
    case RunJob(n, status) => RunJobIsRecorded(p, w, n, status);
    case Tick(span) =>
    case Fetch(n) => FetchIsRecorded(p, w, n);
    case Look(n, a, items) => LookIsRecorded(p, w, n, a, items);
    case Act(n, a) => ActIsRecorded(p, w, n, a);
    case Create(n, a) => CreateJobIsRecorded(p, w, n, a);
    case Write(n, a) => WriteIsRecorded(p, w, n, a);
    case Crash(n) =>
  }

  /** In every run, everything that happened has its reasons. */
  lemma {:induction false} HistoryAlways(p: Params, w: World, actions: seq<Action>)
    requires StoreInv(w) && StatusInv(w) && HistoryInv(p, w)
    ensures HistoryInv(p, Run(p, w, actions))
    decreases |actions|
  {
    hide StoreInv, StatusInv, HistoryInv, Step;
    if actions != [] {
      StoreInvStep(p, w, actions[0]);
      StatusInvStep(p, w, actions[0]);
      HistoryInvStep(p, w, actions[0]);
      HistoryAlways(p, Step(p, w, actions[0]), actions[1..]);
    }
  }

  lemma HistoryFromStart(p: Params, actions: seq<Action>)
    ensures HistoryInv(p, Run(p, INIT, actions))
    ensures StoreInv(Run(p, INIT, actions))
  {
    hide Run;
    HistoryAlways(p, INIT, actions);
    StoreInvFromStart(p, actions);
  }

  // ---------- What it gives ----------

  /** The evidence for Ready: a reconcile read this generation, found its Job complete, and found every bake
      time over and every post-check passed; and the Job had been created for this spec and had completed. */
  ghost predicate ReadyEvidence(p: Params, log: seq<Event>, uid: Uid, name: string, generation: int, e: Event) {
    && e in log && e.Synced?
    && e.o.uid == uid && e.o.generation == generation
    && Stored(uid, e.o.generation, e.o.spec) in log
    && e.job.name == JobName(name, p.hash(e.o.spec))
    && JobCondition(JobCompleteCondition, ConditionTrue) in e.job.status.conditions
    && HasCreated(log, uid, e.job.name) && HasCompleted(log, uid, e.job.name)
    && PostGatesOpen(p, e.o.spec, CompletedAt(e.o, e.job, e.now), e.now, e.answers)
  }

  /** Ready is never a lie: in every run, an object that says Ready has the evidence for the generation that
      its status observed. */
  lemma ReadyIsNeverALie(p: Params, actions: seq<Action>, n: string)
    requires n in Run(p, INIT, actions).objects
    requires IsTrue(Run(p, INIT, actions).objects[n].status.conditions, Ready)
    ensures
      var w := Run(p, INIT, actions);
      exists e :: ReadyEvidence(p, w.log, w.objects[n].uid, n, w.objects[n].status.observedGeneration, e)
  {
    hide Run, SyncResult, PostGatesOpen, HasCreated, HasCompleted, IsSucceeded, StoreInv, IsTrue;
    HistoryFromStart(p, actions);
    var w := Run(p, INIT, actions);
    var o := w.objects[n];
    assert HasSuccess(w.log, o.uid, n, o.status.observedGeneration);
    var e :| e in w.log && e.Synced? && e.o.uid == o.uid && e.o.name == n &&
             e.o.generation == o.status.observedGeneration && e.result.ready;
    assert Justified(p, w.log, e);
    ReadyMeansPassed(p, e.o, e.job, e.now, e.answers);
    ConditionsDecide(e.job);
    assert ReadyEvidence(p, w.log, o.uid, n, o.status.observedGeneration, e);
  }

  lemma ReadyMeansPassed(p: Params, o: DBUpgrade, j: Job, now: Time, a: Answers)
    ensures SyncResult(p, o, j, now, a).ready <==>
            IsSucceeded(j) && PostGatesOpen(p, o.spec, CompletedAt(o, j, now), now, a)
  {
    hide PostChecksResult, PostGatesOpen;
    if IsSucceeded(j) {
      PostChecksMeaning(p, o.spec, CompletedAt(o, j, now), now, a);
    }
  }

  /** No migration starts unchecked: in every run, each Job was created for a spec that had been stored, in
      a reconcile in which every pre-check of that spec passed: for each version check pods were listed, at least
      one, and its gate was open for them; and for each metric check the gate was open. */
  lemma EveryJobWasChecked(p: Params, actions: seq<Action>, e: Event)
    requires e in Run(p, INIT, actions).log && e.JobCreated?
    ensures Stored(e.o.uid, e.o.generation, e.o.spec) in Run(p, INIT, actions).log
    ensures e.job == NewJob(p, e.o)
    ensures PreGatesOpen(p, e.o.spec, e.answers)
    ensures e.o.spec.checks.Some? ==>
      forall c | c in e.o.spec.checks.value.pre.minPodVersions ::
        && e.answers.pods(c).Ok? && e.answers.pods(c).value != []
        && p.parse(Semver.TrimV(c.minVersion)).Some?
        && VersionGate.GateOpen(p.parse, e.answers.pods(c).value, p.parse(Semver.TrimV(c.minVersion)).value, c)
    ensures e.o.spec.checks.Some? && p.restConfig ==>
      forall m | m in e.o.spec.checks.value.pre.metrics :: MetricGate.MetricOpen(e.answers.metrics, m)
  {
    hide Run, StoreInv, VersionGate.Verdict, VersionGate.GateOpen, MetricGate.MetricOpen, Semver.TrimV;
    HistoryFromStart(p, actions);
    assert Justified(p, Run(p, INIT, actions).log, e);
    if e.o.spec.checks.Some? {
      forall c | c in e.o.spec.checks.value.pre.minPodVersions {
        VersionGate.PassedMeaning(p.parse, e.answers.pods, c);
      }
    }
  }

  /** With or without the webhook, in every run, a reconcile that deletes had listed, under that name, a Job of
      the object that it read, not for the spec that it read, and not active. What it deletes is that Job as
      it is by now, which may be active again, or a foreign one that has taken the name. */
  lemma OnlyInactiveStaleJobsAreDeleted(p: Params, actions: seq<Action>, e: Event)
    requires e in Run(p, INIT, actions).log && e.JobDeleted?
    ensures OwnedBy(e.seen, e.o.uid) && e.seen.name != ExpectedName(p, e.o) && e.seen.status.active <= 0
    ensures IsForeign(e.victim) || Later(e.seen, e.victim)
  {
    hide Run, ExpectedName, StoreInv, Later;
    HistoryFromStart(p, actions);
    assert Justified(p, Run(p, INIT, actions).log, e);
  }
}
