/** The webhook and the controller together never cut a migration short, in runs in which every status
    write lands before the next change of the spec and the Jobs of unfinished migrations can be looked up. */
module Uninterrupted {
  import opened Types
  import opened Conditions
  import opened Decision
  import opened Protocol
  import opened StoreSafety
  import opened StatusSafety
  import Webhook

  // ---------- Orderly runs ----------

  /** A Job was created for the object and no status has landed for it since. */
  ghost predicate Outstanding(log: seq<Event>, uid: Uid) {
    if log == [] then false
    else
      var e := log[|log| - 1];
      if e.JobCreated? && e.o.uid == uid then true
      else if e.Landed? && e.o.uid == uid then false
      else Outstanding(log[..|log| - 1], uid)
  }

  ghost predicate HasUnfinished(w: World, uid: Uid) {
    exists m :: m in w.jobs && OwnedBy(w.jobs[m], uid) && !IsFinished(w.jobs[m])
  }

  predicate ChangesSpec(w: World, action: Action) {
    action.UpdateObject? && action.name in w.objects && action.spec != w.objects[action.name].spec
  }

  datatype Clause = NoReconcileUnderWay | StatusHasLanded | JobIsSeen | CreationIsKnown

  /** What an orderly run asks for: the spec changes only while no reconcile of the object is under way, and
      only once the status of every Job created for it has landed; and a reconcile of an object with an
      unfinished Job gets to see it, for which its Secrets must be readable and listing the Jobs must
      succeed; and no creation of a Job takes effect behind a lost answer. */
  ghost predicate Keeps(w: World, action: Action, clause: Clause) {
    match clause
    case NoReconcileUnderWay => ChangesSpec(w, action) ==> action.name !in w.flights
    case StatusHasLanded => ChangesSpec(w, action) ==> !Outstanding(w.log, w.objects[action.name].uid)
    case JobIsSeen =>
      action.Look? && action.name in w.flights && HasUnfinished(w, w.flights[action.name].o.uid) ==>
        ReachesJobs(w.flights[action.name].o.spec, action.answers)
    case CreationIsKnown =>
      action.Create? && action.name in w.flights && w.flights[action.name].Cleared? ==> !action.answers.created.Lost?
  }

  /** A run keeps one of these conditions throughout. */
  ghost predicate KeptBy(p: Params, w: World, actions: seq<Action>, clause: Clause)
    decreases |actions|
  {
    actions == [] || (Keeps(w, actions[0], clause) && KeptBy(p, Step(p, w, actions[0]), actions[1..], clause))
  }

  ghost predicate Orderly(w: World, action: Action) {
    && Keeps(w, action, NoReconcileUnderWay)
    && Keeps(w, action, StatusHasLanded)
    && Keeps(w, action, JobIsSeen)
    && Keeps(w, action, CreationIsKnown)
  }

  ghost predicate OrderlyRun(p: Params, w: World, actions: seq<Action>)
    decreases |actions|
  {
    actions == [] || (Orderly(w, actions[0]) && OrderlyRun(p, Step(p, w, actions[0]), actions[1..]))
  }

  /** A run is orderly exactly when it keeps every condition. */
  lemma {:induction false} OrderlyIffAllKept(p: Params, w: World, actions: seq<Action>)
    ensures OrderlyRun(p, w, actions) <==>
      && KeptBy(p, w, actions, NoReconcileUnderWay)
      && KeptBy(p, w, actions, StatusHasLanded)
      && KeptBy(p, w, actions, JobIsSeen)
      && KeptBy(p, w, actions, CreationIsKnown)
    decreases |actions|
  {
    hide Keeps, Step;
    if actions != [] {
      OrderlyIffAllKept(p, Step(p, w, actions[0]), actions[1..]);
    }
  }

  lemma {:induction false} KeptConcat(p: Params, w: World, first: seq<Action>, second: seq<Action>, clause: Clause)
    ensures KeptBy(p, w, first + second, clause) <==>
            KeptBy(p, w, first, clause) && KeptBy(p, Run(p, w, first), second, clause)
    decreases |first|
  {
    hide Keeps, Step;
    if first == [] {
      assert first + second == second;
    } else {
      assert (first + second)[1..] == first[1..] + second;
      KeptConcat(p, Step(p, w, first[0]), first[1..], second, clause);
    }
  }

  // ---------- What they keep ----------

  /** Whatever Job of this owner is unfinished has this name. */
  ghost predicate UnfinishedIs(w: World, uid: Uid, jobName: string) {
    forall m | m in w.jobs && OwnedBy(w.jobs[m], uid) && !IsFinished(w.jobs[m]) :: m == jobName
  }

  /** An unfinished Job is for the current spec, and the status says Progressing or is about to. */
  ghost predicate ObjectCalm(p: Params, w: World, n: string)
    requires n in w.objects
  {
    var o := w.objects[n];
    && UnfinishedIs(w, o.uid, ExpectedName(p, o))
    && (HasUnfinished(w, o.uid) ==> IsTrue(o.status.conditions, Progressing) || Outstanding(w.log, o.uid))
  }

  ghost predicate FlightCalm(p: Params, w: World, n: string)
    requires n in w.flights
  {
    var f := w.flights[n];
    && UnfinishedIs(w, f.o.uid, ExpectedName(p, f.o))
    && (n in w.objects && w.objects[n].uid == f.o.uid ==> w.objects[n].spec == f.o.spec)
    && (f.Found? && f.job.Some? ==>
          && (!IsFinished(f.job.value) ==> f.job.value.name == ExpectedName(p, f.o))
          && (forall m | m in w.jobs && OwnedBy(w.jobs[m], f.o.uid) :: m == f.job.value.name))
    && (f.Done? && HasUnfinished(w, f.o.uid) ==> f.result.progressing)
  }

  ghost predicate OnlyFinishedDeleted(log: seq<Event>) {
    forall e | e in log && e.JobDeleted? :: IsFinished(e.victim) || IsForeign(e.victim)
  }

  ghost predicate CalmInv(p: Params, w: World) {
    && (forall n | n in w.objects :: ObjectCalm(p, w, n))
    && (forall n | n in w.flights :: FlightCalm(p, w, n))
    && OnlyFinishedDeleted(w.log)
  }

  // ---------- Frames ----------

  lemma OutstandingGrows(log: seq<Event>, e: Event, uid: Uid)
    ensures Outstanding(log + [e], uid) <==>
      if (e.JobCreated? || e.Landed?) && e.o.uid == uid then e.JobCreated? else Outstanding(log, uid)
  {
    assert (log + [e])[..|log + [e]| - 1] == log;
  }

  /** For one owner, the Jobs of v are among those of w, further on. */
  ghost predicate Fewer(w: World, v: World, uid: Uid) {
    forall m | m in v.jobs && OwnedBy(v.jobs[m], uid) :: m in w.jobs && Later(w.jobs[m], v.jobs[m])
  }

  lemma FewerUnfinished(w: World, v: World, uid: Uid, jobName: string)
    requires Fewer(w, v, uid)
    ensures HasUnfinished(v, uid) ==> HasUnfinished(w, uid)
    ensures UnfinishedIs(w, uid, jobName) ==> UnfinishedIs(v, uid, jobName)
  {
    hide IsSucceeded, IsFailed;
  }

  /** A step after which no owner has new Jobs, and the objects and flights that are left are as they were. */
  ghost predicate OnlyLess(w: World, v: World) {
    && (forall u: Uid :: u.UpgradeUid? ==> Fewer(w, v, u))
    && (forall n | n in v.objects :: n in w.objects && v.objects[n] == w.objects[n])
    && (forall n | n in v.flights :: n in w.flights && v.flights[n] == w.flights[n])
    && (v.log == w.log ||
        (|v.log| == |w.log| + 1 && v.log == w.log + [v.log[|w.log|]] &&
         (v.log[|w.log|].JobCollected? || v.log[|w.log|].JobCompleted?)))
  }

  lemma LessIsCalm(p: Params, w: World, v: World)
    requires StoreInv(w) && CalmInv(p, w) && OnlyLess(w, v)
    ensures CalmInv(p, v)
  {
    hide JobsOk, OneJobEach, ExpectedName, HasUnfinished, UnfinishedIs, IsTrue, Outstanding, OwnsNone, StillOwn,
         IsSucceeded, IsFailed, NamedFor;
    forall n | n in v.objects
      ensures ObjectCalm(p, v, n)
    {
      assert ObjectCalm(p, w, n);
      FewerUnfinished(w, v, w.objects[n].uid, ExpectedName(p, w.objects[n]));
      if v.log != w.log {
        OutstandingGrows(w.log, v.log[|w.log|], w.objects[n].uid);
      }
    }
    forall n | n in v.flights
      ensures FlightCalm(p, v, n)
    {
      assert FlightCalm(p, w, n);
      assert FlightOk(w, n, w.flights[n]);
      FewerUnfinished(w, v, w.flights[n].o.uid, ExpectedName(p, w.flights[n].o));
    }
  }

  /** The reconcile of one object moves on; the Jobs and the objects stay, and nothing is recorded but what
      is no creation and no status. */
  ghost predicate Moves(w: World, v: World, n: string) {
    && v.jobs == w.jobs && v.objects == w.objects
    && n in v.flights && v.flights == w.flights[n := v.flights[n]]
    && (v.log == w.log ||
        (|v.log| == |w.log| + 1 && v.log == w.log + [v.log[|w.log|]] &&
         (v.log[|w.log|].Synced? ||
          (v.log[|w.log|].JobDeleted? && (IsFinished(v.log[|w.log|].victim) || IsForeign(v.log[|w.log|].victim))))))
  }

  lemma MoveIsCalm(p: Params, w: World, v: World, n: string)
    requires CalmInv(p, w) && Moves(w, v, n) && FlightCalm(p, v, n)
    ensures CalmInv(p, v)
  {
    hide ExpectedName, Outstanding, IsTrue, IsFinished, IsForeign;
    forall m | m in v.objects
      ensures ObjectCalm(p, v, m)
    {
      assert ObjectCalm(p, w, m);
      if v.log != w.log {
        OutstandingGrows(w.log, v.log[|w.log|], w.objects[m].uid);
      }
    }
    forall m | m in v.flights
      ensures FlightCalm(p, v, m)
    {
      if m != n {
        assert FlightCalm(p, w, m);
      }
    }
  }

  // ---------- Users ----------

  lemma FreshUidOwnsNone(w: World, uid: Uid)
    requires StoreInv(w) && uid == UpgradeUid(w.nextUid)
    ensures OwnsNone(w, uid)
    ensures forall n | n in w.flights :: w.flights[n].o.uid != uid
  {
    hide NamedFor, StillOwn, OwnsNone;
    forall n | n in w.flights
      ensures w.flights[n].o.uid != uid
    {
      assert FlightOk(w, n, w.flights[n]);
    }
    assert OwnsNone(w, uid) by {
      forall m | m in w.jobs
        ensures !OwnedBy(w.jobs[m], uid)
      {
      }
      OwnsNoneIntro(w, uid);
    }
  }

  lemma OwnsNoneIntro(w: World, uid: Uid)
    requires forall m | m in w.jobs :: !OwnedBy(w.jobs[m], uid)
    ensures OwnsNone(w, uid)
    ensures !HasUnfinished(w, uid)
  {
  }

  lemma CreateIsCalm(p: Params, w: World, n: string, spec: Spec)
    requires StoreInv(w) && CalmInv(p, w)
    ensures CalmInv(p, CreateStep(p, w, n, spec))
  {
    hide StoreInv, ExpectedName, Outstanding, IsTrue, IsFinished, IsForeign;
    var v := CreateStep(p, w, n, spec);
    if v != w {
      var uid := UpgradeUid(w.nextUid);
      FreshUidOwnsNone(w, uid);
      forall m | m in v.objects
        ensures ObjectCalm(p, v, m)
      {
        if m != n {
          assert ObjectCalm(p, w, m);
          OutstandingGrows(w.log, v.log[|w.log|], w.objects[m].uid);
        }
      }
      forall m | m in v.flights
        ensures FlightCalm(p, v, m)
      {
        assert FlightCalm(p, w, m);
      }
    }
  }

  lemma UpdateIsCalm(p: Params, w: World, n: string, spec: Spec)
    requires p.webhook && StoreInv(w) && CalmInv(p, w) && Orderly(w, UpdateObject(n, spec))
    ensures CalmInv(p, UpdateStep(p, w, n, spec))
  {
    hide StoreInv, ExpectedName, Outstanding, IsTrue, IsFinished, IsForeign, Webhook.AdmitsUpdate, Webhook.SoundSpec,
         Webhook.TargetOf;
    var v := UpdateStep(p, w, n, spec);
    if v != w {
      Webhook.UpdateAdmittedIff(p.parse, w.objects[n], spec);
      SpecNamesJob(p, w.objects[n], v.objects[n]);
      forall m | m in v.objects
        ensures ObjectCalm(p, v, m)
      {
        assert ObjectCalm(p, w, m);
        if v.log != w.log {
          OutstandingGrows(w.log, v.log[|w.log|], w.objects[m].uid);
        }
      }
      forall m | m in v.flights
        ensures FlightCalm(p, v, m)
      {
        assert FlightCalm(p, w, m);
      }
    }
  }

  /** The name of the Job depends only on the name and the spec of the object. */
  lemma SpecNamesJob(p: Params, o: DBUpgrade, other: DBUpgrade)
    requires o.name == other.name
    ensures o.spec == other.spec ==> ExpectedName(p, o) == ExpectedName(p, other)
  {
  }

  // ---------- The operator ----------

  lemma FetchIsCalm(p: Params, w: World, n: string)
    requires CalmInv(p, w)
    ensures CalmInv(p, FetchStep(w, n))
  {
    hide ExpectedName, Outstanding, IsTrue, IsFinished, IsForeign;
    var v := FetchStep(w, n);
    if v != w {
      assert ObjectCalm(p, w, n);
      MoveIsCalm(p, w, v, n);
    }
  }

  lemma LookIsCalm(p: Params, w: World, n: string, a: Answers, items: seq<Job>)
    requires StoreInv(w) && CalmInv(p, w) && Orderly(w, Look(n, a, items))
    ensures CalmInv(p, LookStep(p, w, n, a, items))
  {
    hide StoreInv, ExpectedName, Outstanding, IsTrue, IsFinished, IsForeign, EarlyResult, Stopped;
    var v := LookStep(p, w, n, a, items);
    if v != w {
      var o := w.flights[n].o;
      assert FlightCalm(p, w, n);
      var found := FirstOwned(items, o.uid);
      if found.Some? {
        assert found.value in items;
        TheOnlyJob(w, n, found.value);
      }
      MoveIsCalm(p, w, v, n);
    }
  }

  /** A Job listed for an object that a reconcile has read is the only one of that object. */
  lemma TheOnlyJob(w: World, n: string, job: Job)
    requires StoreInv(w) && n in w.flights
    requires job.name in w.jobs && w.jobs[job.name] == job && OwnedBy(job, w.flights[n].o.uid)
    ensures forall m | m in w.jobs && OwnedBy(w.jobs[m], w.flights[n].o.uid) :: m == job.name
  {
    hide ObjectsOk, JobsOk, OwnsNone, StillOwn, NamedFor;
    assert FlightOk(w, n, w.flights[n]);
  }

  /** What a reconcile that found a Job knows of the Jobs of its object now: there is none but that one, which
      may have gone further. */
  lemma FoundJobNow(p: Params, w: World, n: string)
    requires StoreInv(w) && CalmInv(p, w)
    requires n in w.flights && w.flights[n].Found? && w.flights[n].job.Some?
    ensures
      var Found(o, found) := w.flights[n];
      && (HasUnfinished(w, o.uid) ==> !IsFinished(found.value))
      && (found.value.name in w.jobs && !IsForeign(w.jobs[found.value.name]) ==>
            Later(found.value, w.jobs[found.value.name]))
      && (forall m | m in w.jobs && OwnedBy(w.jobs[m], o.uid) :: m == found.value.name)
  {
    hide ObjectsOk, JobsOk, OneJobEach, OwnsNone, NamedFor, ExpectedName, UnfinishedIs, IsSucceeded, IsFailed;
    assert FlightOk(w, n, w.flights[n]) && FlightCalm(p, w, n);
  }

  lemma SyncProgresses(p: Params, o: DBUpgrade, j: Job, now: Time, a: Answers)
    ensures !IsFinished(j) ==> SyncResult(p, o, j, now, a).progressing
  {
    hide PostChecksResult;
  }

  lemma ActIsCalm(p: Params, w: World, n: string, a: Answers)
    requires StoreInv(w) && CalmInv(p, w)
    ensures CalmInv(p, ActStep(p, w, n, a))
  {
    hide StoreInv, ExpectedName, Outstanding, IsTrue, IsFinished, IsForeign, PreChecksResult, SyncResult,
         DeleteJobStep, IsRunning;
    if n in w.flights && w.flights[n].Found? {
      var Found(o, found) := w.flights[n];
      var v := ActStep(p, w, n, a);
      assert FlightCalm(p, w, n);
      if found.None? {
        NoneFound(w, n);
        MoveIsCalm(p, w, v, n);
      } else if found.value.name == ExpectedName(p, o) {
        FoundJobNow(p, w, n);
        SyncProgresses(p, o, found.value, w.now, a);
        MoveIsCalm(p, w, v, n);
      } else if IsRunning(found.value) {
        MoveIsCalm(p, w, v, n);
      } else {
        DeletingIsCalm(p, w, n, a);
      }
    }
  }

  lemma NoneFound(w: World, n: string)
    requires StoreInv(w) && n in w.flights
    requires (w.flights[n].Found? && w.flights[n].job.None?) || w.flights[n].Cleared?
    ensures OwnsNone(w, w.flights[n].o.uid)
    ensures !HasUnfinished(w, w.flights[n].o.uid)
  {
    hide ObjectsOk, JobsOk, OneJobEach, NamedFor, StillOwn, IsFinished;
    assert FlightOk(w, n, w.flights[n]);
  }

  lemma DeletingIsCalm(p: Params, w: World, n: string, a: Answers)
    requires StoreInv(w) && CalmInv(p, w)
    requires n in w.flights && w.flights[n].Found? && w.flights[n].job.Some?
    requires w.flights[n].job.value.name != ExpectedName(p, w.flights[n].o)
    ensures CalmInv(p, DeleteJobStep(w, n, w.flights[n].o, w.flights[n].job.value, a))
  {
    hide StoreInv, CalmInv, ExpectedName, IsTrue, Outstanding, IsSucceeded, IsFailed;
    var Found(o, found) := w.flights[n];
    var v := DeleteJobStep(w, n, o, found.value, a);
    FoundJobNow(p, w, n);
    assert IsFinished(found.value) && UnfinishedIs(w, o.uid, ExpectedName(p, o)) &&
           (n in w.objects && w.objects[n].uid == o.uid ==> w.objects[n].spec == o.spec) by {
      FlightIsCalm(p, w, n);
    }
    if !a.deleted.TakesEffect() {
      MoveIsCalm(p, w, v, n);
    } else {
      var u := w.(jobs := w.jobs - {found.value.name});
      assert forall x: Uid :: Fewer(w, u, x);
      LessIsCalm(p, w, u);
      assert !HasUnfinished(v, o.uid);
      assert found.value.name in w.jobs ==>
        IsFinished(w.jobs[found.value.name]) || IsForeign(w.jobs[found.value.name]);
      MoveIsCalm(p, u, v, n);
    }
  }

  lemma FlightIsCalm(p: Params, w: World, n: string)
    requires CalmInv(p, w) && n in w.flights
    ensures FlightCalm(p, w, n)
  {
    hide FlightCalm, ObjectCalm;
  }

  lemma CreateJobIsCalm(p: Params, w: World, n: string, a: Answers)
    requires StoreInv(w) && CalmInv(p, w) && Orderly(w, Create(n, a))
    ensures CalmInv(p, CreateJobStep(p, w, n, a))
  {
    hide StoreInv, CalmInv, ExpectedName, IsTrue, Outstanding, IsSucceeded, IsFailed;
    if n in w.flights && w.flights[n].Cleared? {
      var v := CreateJobStep(p, w, n, a);
      FlightIsCalm(p, w, n);
      NoneFound(w, n);
      if v.jobs == w.jobs {
        MoveIsCalm(p, w, v, n);
      } else {
        var u := w.(flights := v.flights);
        MoveIsCalm(p, w, u, n);
        OwnNameIs(w, n);
        JobArrivesIsCalm(p, u, v, n, JobCreated(w.flights[n].o, NewJob(p, w.flights[n].o), w.flights[n].answers));
      }
    }
  }

  lemma OwnNameIs(w: World, n: string)
    requires StoreInv(w) && n in w.flights
    ensures w.flights[n].o.name == n && (forall m | m in w.objects :: w.objects[m].name == m)
    ensures forall m | m in w.objects && w.objects[m].uid == w.flights[n].o.uid :: m == n
    ensures forall m | m in w.flights && w.flights[m].o.uid == w.flights[n].o.uid :: m == n
  {
    hide JobsOk, OneJobEach, OwnsNone, StillOwn, NamedFor;
    assert FlightOk(w, n, w.flights[n]);
    forall m | m in w.flights && w.flights[m].o.uid == w.flights[n].o.uid
      ensures m == n
    {
      assert FlightOk(w, m, w.flights[m]);
    }
  }

  /** The Job that a reconcile creates for its object, which had none. */
  lemma JobArrivesIsCalm(p: Params, w: World, v: World, n: string, e: Event)
    requires CalmInv(p, w) && n in w.flights && w.flights[n].Done? && w.flights[n].result.progressing
    requires e.JobCreated? && e.o == w.flights[n].o && e.job == NewJob(p, e.o) && e.job.name !in w.jobs
    requires !HasUnfinished(w, e.o.uid)
    requires v.jobs == w.jobs[e.job.name := e.job] && v.objects == w.objects && v.flights == w.flights
    requires v.log == w.log + [e]
    requires e.o.name == n && (forall m | m in w.objects :: w.objects[m].name == m)
    requires forall m | m in w.objects && w.objects[m].uid == e.o.uid :: m == n
    requires forall m | m in w.flights && w.flights[m].o.uid == e.o.uid :: m == n
    ensures CalmInv(p, v)
  {
    hide ExpectedName, IsTrue, Outstanding, IsFinished, IsForeign;
    forall m | m in v.objects
      ensures ObjectCalm(p, v, m)
    {
      assert ObjectCalm(p, w, m);
      OutstandingGrows(w.log, e, w.objects[m].uid);
      if m == n && w.objects[m].uid == e.o.uid {
        assert FlightCalm(p, w, n);
        SpecNamesJob(p, w.objects[m], e.o);
      }
    }
    forall m | m in v.flights
      ensures FlightCalm(p, v, m)
    {
      assert FlightCalm(p, w, m);
    }
  }

  lemma WriteIsCalm(p: Params, w: World, n: string, a: Answers)
    requires StoreInv(w) && StatusInv(w) && CalmInv(p, w)
    ensures CalmInv(p, WriteStep(w, n, a))
  {
    hide StoreInv, StatusInv, ExpectedName, IsTrue, Outstanding, IsFinished, IsForeign, NewStatus;
    if n in w.flights && w.flights[n].Done? {
      var v := WriteStep(w, n, a);
      var Done(o, r) := w.flights[n];
      WriteKeepsStatus(w, n, a);
      assert FlightCalm(p, w, n);
      forall m | m in v.objects
        ensures ObjectCalm(p, v, m)
      {
        assert ObjectCalm(p, w, m);
        if Lands(w, n, a) {
          OutstandingGrows(w.log, Landed(o, r), w.objects[m].uid);
          SpecNamesJob(p, w.objects[n], v.objects[n]);
          OwnNameIs(w, n);
        }
      }
      forall m | m in v.flights
        ensures FlightCalm(p, v, m)
      {
        assert FlightCalm(p, w, m);
      }
    }
  }

  lemma CalmInvStep(p: Params, w: World, action: Action)
    requires p.webhook && StoreInv(w) && StatusInv(w) && CalmInv(p, w) && Orderly(w, action)
    ensures CalmInv(p, Step(p, w, action))
  {
    hide StoreInv, StatusInv, CalmInv, Orderly, OnlyLess, CreateStep, UpdateStep, CollectStep, ForeignCreateStep,
         ForeignDeleteStep, RunJobStep, FetchStep, LookStep, ActStep, CreateJobStep, WriteStep;
    match action
    case CreateObject(n, spec) => CreateIsCalm(p, w, n, spec);
    case UpdateObject(n, spec) => UpdateIsCalm(p, w, n, spec);
    case Look(n, a, items) => LookIsCalm(p, w, n, a, items);
    case Fetch(n) => FetchIsCalm(p, w, n);
    case Act(n, a) => ActIsCalm(p, w, n, a);
    case Create(n, a) => CreateJobIsCalm(p, w, n, a);
    case Write(n, a) => WriteIsCalm(p, w, n, a);
    case RunJob(n, status) =>
      RunJobOnlyLess(w, n, status);
      LessIsCalm(p, w, RunJobStep(w, n, status));
    case _ =>
      OthersOnlyLess(p, w, action);
      LessIsCalm(p, w, Step(p, w, action));
  }

  lemma RunJobOnlyLess(w: World, n: string, status: JobStatus)
    requires StoreInv(w)
    ensures OnlyLess(w, RunJobStep(w, n, status))
  {
    hide ObjectsOk, OneJobEach, FlightsOk, NamedFor, IsSucceeded, IsFailed;
  }

  lemma OthersOnlyLess(p: Params, w: World, action: Action)
    requires action.DeleteObject? || action.CollectJob? || action.ForeignCreate? || action.ForeignDelete? ||
             action.Tick? || action.Crash?
    ensures OnlyLess(w, Step(p, w, action))
  {
    hide IsSucceeded, IsFailed, Live, CreateStep, UpdateStep, RunJobStep, FetchStep, LookStep, ActStep,
         CreateJobStep, WriteStep;
  }

  lemma {:induction false} CalmAlways(p: Params, w: World, actions: seq<Action>)
    requires p.webhook && StoreInv(w) && StatusInv(w) && CalmInv(p, w) && OrderlyRun(p, w, actions)
    ensures CalmInv(p, Run(p, w, actions))
    decreases |actions|
  {
    hide StoreInv, StatusInv, CalmInv, Orderly, Step;
    if actions != [] {
      StoreInvStep(p, w, actions[0]);
      StatusInvStep(p, w, actions[0]);
      CalmInvStep(p, w, actions[0]);
      CalmAlways(p, Step(p, w, actions[0]), actions[1..]);
    }
  }

  lemma CalmFromStart(p: Params, actions: seq<Action>)
    requires p.webhook && OrderlyRun(p, INIT, actions)
    ensures CalmInv(p, Run(p, INIT, actions))
  {
    hide Run, OrderlyRun;
    CalmAlways(p, INIT, actions);
  }

  // ---------- What it gives ----------

  /** In every orderly run, with the webhook installed, an unfinished Job is for the current spec of its
      object; and unless the status of its creation is still outstanding, the object says Progressing. */
  lemma UnfinishedMeansProgressing(p: Params, actions: seq<Action>, n: string, m: string)
    requires p.webhook && OrderlyRun(p, INIT, actions)
    requires n in Run(p, INIT, actions).objects && m in Run(p, INIT, actions).jobs
    requires OwnedBy(Run(p, INIT, actions).jobs[m], Run(p, INIT, actions).objects[n].uid)
    requires
      var conditions := Run(p, INIT, actions).jobs[m].status.conditions;
      && JobCondition(JobCompleteCondition, ConditionTrue) !in conditions
      && JobCondition(JobFailedCondition, ConditionTrue) !in conditions
    ensures
      var w := Run(p, INIT, actions);
      var o := w.objects[n];
      && m == ExpectedName(p, o)
      && (Outstanding(w.log, o.uid) || IsTrue(o.status.conditions, Progressing))
  {
    hide Run, OrderlyRun, ExpectedName, Outstanding, IsTrue, IsSucceeded, IsFailed;
    CalmFromStart(p, actions);
    ConditionsDecide(Run(p, INIT, actions).jobs[m]);
    assert ObjectCalm(p, Run(p, INIT, actions), n);
  }

  /** No migration is cut short: in every orderly run, with the webhook installed, every Job of a DBUpgrade
      that the operator deletes is complete or failed. */
  lemma NoMigrationIsCutShort(p: Params, actions: seq<Action>, e: Event)
    requires p.webhook && OrderlyRun(p, INIT, actions)
    requires e in Run(p, INIT, actions).log && e.JobDeleted? && !IsForeign(e.victim)
    ensures IsFinished(e.victim)
    ensures
      || JobCondition(JobCompleteCondition, ConditionTrue) in e.victim.status.conditions
      || JobCondition(JobFailedCondition, ConditionTrue) in e.victim.status.conditions
  {
    hide Run, OrderlyRun, IsSucceeded, IsFailed;
    CalmFromStart(p, actions);
    ConditionsDecide(e.victim);
  }
}
