/** Whose Job the operator deletes: its own, unless it was garbage collected and another took its name. */
module Victims {
  import opened Types
  import opened Decision
  import opened Protocol
  import opened StoreSafety
  import opened StatusSafety
  import opened Reruns
  import opened History

  /** A Job of this owner was garbage collected. */
  ghost predicate Collected(log: seq<Event>, uid: Uid) {
    exists e :: e in log && e.JobCollected? && OwnedBy(e.job, uid)
  }

  ghost predicate VictimOk(log: seq<Event>, k: nat)
    requires k < |log|
  {
    log[k].JobDeleted? ==>
      && (IsForeign(log[k].victim) <==> Collected(log[..k], log[k].o.uid))
      && log[k].victim.name == log[k].seen.name
  }

  ghost predicate VictimsOk(log: seq<Event>) {
    forall k | 0 <= k < |log| :: VictimOk(log, k)
  }

  /** A reconcile that is yet to act holds the Job of its object, unless one was collected; and then the
      object has none. */
  ghost predicate FlightHolds(w: World, f: Flight) {
    && ((f.Fetched? || f.Found?) && Collected(w.log, f.o.uid) ==> forall m :: !InStore(w, f.o.uid, m))
    && (f.Found? && f.job.Some? && !Collected(w.log, f.o.uid) ==> InStore(w, f.o.uid, f.job.value.name))
  }

  ghost predicate VictimInv(w: World) {
    VictimsOk(w.log) && forall n | n in w.flights :: FlightHolds(w, w.flights[n])
  }

  // ---------- Frames ----------

  lemma CollectedGrows(log: seq<Event>, e: Event, uid: Uid)
    ensures Collected(log + [e], uid) <==> Collected(log, uid) || (e.JobCollected? && OwnedBy(e.job, uid))
  {
    hide OwnedBy;
    if e.JobCollected? && OwnedBy(e.job, uid) {
      assert e in log + [e];
    }
    if Collected(log, uid) {
      var d :| d in log && d.JobCollected? && OwnedBy(d.job, uid);
      assert d in log + [e];
    }
  }

  lemma VictimsStillOk(log: seq<Event>, e: Event)
    requires VictimsOk(log)
    requires e.JobDeleted? ==> (IsForeign(e.victim) <==> Collected(log, e.o.uid)) && e.victim.name == e.seen.name
    ensures VictimsOk(log + [e])
  {
    hide Collected, IsForeign;
    var more := log + [e];
    forall k | 0 <= k < |more|
      ensures VictimOk(more, k)
    {
      if k < |log| {
        assert VictimOk(log, k);
        assert more[..k] == log[..k];
      } else {
        assert more[..k] == log;
      }
    }
  }

  /** The owner has the same Jobs, and none of them was collected now. */
  ghost predicate SameStore(w: World, v: World, uid: Uid) {
    && (forall m :: InStore(v, uid, m) <==> InStore(w, uid, m))
    && (Collected(v.log, uid) <==> Collected(w.log, uid))
  }

  lemma FlightStillHolds(w: World, v: World, f: Flight)
    requires FlightHolds(w, f) && SameStore(w, v, f.o.uid)
    ensures FlightHolds(v, f)
  {
    hide InStore, Collected;
  }

  /** A reconcile holds what it should, or is where it was in a store that is the same for it. */
  ghost predicate StillHolds(w: World, v: World, n: string)
    requires n in v.flights
  {
    || FlightHolds(v, v.flights[n])
    || (n in w.flights && v.flights[n] == w.flights[n] && SameStore(w, v, v.flights[n].o.uid))
  }

  /** The history grows by one event at most; each reconcile is where it was, in a store that is the same for it,
      or holds what it should. */
  lemma VictimInvStays(w: World, v: World)
    requires VictimInv(w)
    requires v.log == w.log || (|v.log| > 0 && v.log[..|v.log| - 1] == w.log)
    requires v.log != w.log && v.log[|v.log| - 1].JobDeleted? ==>
      var e := v.log[|v.log| - 1];
      (IsForeign(e.victim) <==> Collected(w.log, e.o.uid)) && e.victim.name == e.seen.name
    requires forall n | n in v.flights :: StillHolds(w, v, n)
    ensures VictimInv(v)
  {
    hide FlightHolds, SameStore, VictimsOk, IsForeign, Collected;
    if v.log != w.log {
      assert v.log == w.log + [v.log[|v.log| - 1]];
      VictimsStillOk(w.log, v.log[|v.log| - 1]);
    }
    forall n | n in v.flights
      ensures FlightHolds(v, v.flights[n])
    {
      if !FlightHolds(v, v.flights[n]) {
        FlightStillHolds(w, v, v.flights[n]);
      }
    }
  }

  // ---------- Users and the rest of the cluster ----------

  /** These neither create nor take away a Job of a DBUpgrade. */
  predicate LeavesJobs(action: Action) {
    !action.CollectJob? && !action.Act? && !action.Create?
  }

  lemma StoreStays(p: Params, w: World, action: Action, uid: Uid)
    requires JobsOk(w) && uid.UpgradeUid? && LeavesJobs(action)
    ensures SameStore(w, Step(p, w, action), uid)
  {
    hide JobsOk, InStore, Collected;
    SameOwnJobs(p, w, action, uid);
    NoneCollected(p, w, action);
    var v := Step(p, w, action);
    if v.log != w.log {
      CollectedGrows(w.log, v.log[|w.log|], uid);
    }
  }

  lemma SameOwnJobs(p: Params, w: World, action: Action, uid: Uid)
    requires JobsOk(w) && uid.UpgradeUid? && LeavesJobs(action)
    ensures forall m :: InStore(Step(p, w, action), uid, m) <==> InStore(w, uid, m)
  {
    hide NamedFor, EarlyResult, Lists, FirstOwned, Stopped, NewStatus, Live, IsSucceeded, IsFailed, CollectStep,
         ActStep, CreateJobStep, Webhook.AdmitsCreate, Webhook.AdmitsUpdate;
  }

  lemma NoneCollected(p: Params, w: World, action: Action)
    requires LeavesJobs(action)
    ensures
      var v := Step(p, w, action);
      v.log == w.log || (|v.log| == |w.log| + 1 && v.log == w.log + [v.log[|w.log|]] && !v.log[|w.log|].JobCollected?)
  {
    hide EarlyResult, Lists, FirstOwned, Stopped, NewStatus, Live, IsSucceeded, IsFailed, CollectStep, ActStep,
         CreateJobStep, Webhook.AdmitsCreate, Webhook.AdmitsUpdate;
  }

  /** What a reconcile that has moved on, or was there before, has to do with these. */
  lemma OthersHold(p: Params, w: World, action: Action)
    requires StoreInv(w) && CollectionsOk(w) && VictimInv(w) && LeavesJobs(action)
    requires !action.Fetch? && !action.Look?
    ensures VictimInv(Step(p, w, action))
  {
    hide ObjectsOk, OneJobEach, CollectionsOk, VictimInv, Collected, NewStatus, Live, IsSucceeded, IsFailed,
         SameStore, CollectStep, ActStep, CreateJobStep, LookStep, Webhook.AdmitsCreate, Webhook.AdmitsUpdate,
         JobsOk, FlightOk;
    var v := Step(p, w, action);
    assert v.log != w.log ==> v.log[..|v.log| - 1] == w.log;
    forall n | n in v.flights
      ensures StillHolds(w, v, n)
    {
      FlightBasics(w, n, w.flights[n]);
      StoreStays(p, w, action, w.flights[n].o.uid);
    }
    VictimInvStays(w, v);
  }

  lemma FetchHolds(p: Params, w: World, n: string)
    requires StoreInv(w) && CollectionsOk(w) && VictimInv(w)
    ensures VictimInv(FetchStep(w, n))
  {
    hide StoreInv, CollectionsOk, VictimInv, FlightHolds, SameStore;
    var v := FetchStep(w, n);
    forall m | m in v.flights
      ensures StillHolds(w, v, m)
    {
      if m in w.flights {
        SameJobsSameStore(w, v, v.flights[m].o.uid);
      } else {
        LiveIsNotCollected(w, m);
        FetchedHolds(v, v.flights[m]);
      }
    }
    VictimInvStays(w, v);
  }

  lemma LiveIsNotCollected(w: World, n: string)
    requires StoreInv(w) && CollectionsOk(w) && n in w.objects
    ensures !Collected(w.log, w.objects[n].uid)
  {
    hide JobsOk, OneJobEach, FlightsOk, OwnedBy;
    assert Live(w, w.objects[n].uid) && w.objects[n].uid.UpgradeUid?;
  }

  lemma FetchedHolds(w: World, f: Flight)
    requires f.Fetched? && !Collected(w.log, f.o.uid)
    ensures FlightHolds(w, f)
  {
  }

  lemma LookHolds(p: Params, w: World, n: string, a: Answers, items: seq<Job>)
    requires StoreInv(w) && VictimInv(w)
    ensures VictimInv(LookStep(p, w, n, a, items))
  {
    hide StoreInv, VictimInv, FlightHolds, SameStore, EarlyResult, Stopped, Lists, FirstOwned;
    var v := LookStep(p, w, n, a, items);
    if v != w {
      forall m | m in v.flights
        ensures StillHolds(w, v, m)
      {
        if m != n {
          SameJobsSameStore(w, v, v.flights[m].o.uid);
        } else if v.flights[n].Done? {
          DoneHolds(v, v.flights[n]);
        } else {
          FoundHolds(w, n, items);
          FlightStillHolds(w, v, v.flights[n]) by {
            SameJobsSameStore(w, v, v.flights[n].o.uid);
          }
        }
      }
      VictimInvStays(w, v);
    }
  }

  lemma FoundHolds(w: World, n: string, items: seq<Job>)
    requires VictimInv(w) && n in w.flights && w.flights[n].Fetched? && Lists(items, w.jobs)
    ensures FlightHolds(w, Found(w.flights[n].o, FirstOwned(items, w.flights[n].o.uid)))
  {
    hide VictimsOk, Collected;
    assert FlightHolds(w, w.flights[n]);
    var found := FirstOwned(items, w.flights[n].o.uid);
    if found.Some? {
      assert found.value in items;
    }
  }

  /** Garbage collection takes away the only Job of an owner. */
  lemma CollectHolds(w: World, n: string)
    requires StoreInv(w) && VictimInv(w)
    ensures VictimInv(CollectStep(w, n))
  {
    hide ObjectsOk, FlightOk, VictimInv, FlightHolds, Collected, NamedFor, Live;
    var v := CollectStep(w, n);
    if v != w {
      assert v.log[..|v.log| - 1] == w.log;
      forall m | m in v.flights
        ensures StillHolds(w, v, m)
      {
        var uid := v.flights[m].o.uid;
        FlightBasics(w, m, w.flights[m]);
        CollectedGrows(w.log, JobCollected(w.jobs[n]), uid);
        if OwnedBy(w.jobs[n], uid) {
          NothingLeft(w, v, n, v.flights[m]);
        }
      }
      VictimInvStays(w, v);
    }
  }

  lemma NothingLeft(w: World, v: World, n: string, f: Flight)
    requires OneJobEach(w) && n in w.jobs && OwnedBy(w.jobs[n], f.o.uid) && f.o.uid.UpgradeUid?
    requires v.jobs == w.jobs - {n} && Collected(v.log, f.o.uid)
    ensures FlightHolds(v, f)
  {
    hide Collected;
  }

  // ---------- The operator ----------

  lemma CreateJobHolds(p: Params, w: World, n: string, a: Answers)
    requires StoreInv(w) && VictimInv(w)
    ensures VictimInv(CreateJobStep(p, w, n, a))
  {
    hide ObjectsOk, JobsOk, OneJobEach, FlightOk, VictimInv, FlightHolds, Collected, Stopped, InProgress, JobName;
    if n in w.flights && w.flights[n].Cleared? {
      var v := CreateJobStep(p, w, n, a);
      assert v.log != w.log ==> v.log[..|v.log| - 1] == w.log;
      forall m | m in v.flights
        ensures StillHolds(w, v, m)
      {
        if m == n {
          DoneHolds(v, v.flights[n]);
        } else {
          DifferentUids(w, n, m);
          if v.log != w.log {
            CollectedGrows(w.log, v.log[|w.log|], v.flights[m].o.uid);
          }
        }
      }
      VictimInvStays(w, v);
    }
  }

  lemma DoneHolds(w: World, f: Flight)
    requires f.Done? || f.Cleared?
    ensures FlightHolds(w, f)
  {
  }

  lemma DifferentUids(w: World, n: string, m: string)
    requires StoreInv(w) && n in w.flights && m in w.flights && m != n
    ensures w.flights[n].o.uid != w.flights[m].o.uid
  {
    hide ObjectsOk, JobsOk, OneJobEach, FlightOk;
    FlightBasics(w, n, w.flights[n]);
    FlightBasics(w, m, w.flights[m]);
  }

  lemma ActHolds(p: Params, w: World, n: string, a: Answers)
    requires StoreInv(w) && VictimInv(w)
    ensures VictimInv(ActStep(p, w, n, a))
  {
    hide StoreInv, VictimInv, FlightHolds, Collected, PreChecksResult, SyncResult, ExpectedName, IsRunning,
         InProgress, DeleteJobStep, InStore;
    if n in w.flights && w.flights[n].Found? {
      var Found(o, found) := w.flights[n];
      var v := ActStep(p, w, n, a);
      if found.Some? && found.value.name != ExpectedName(p, o) && !IsRunning(found.value) {
        DeleteHolds(w, n, a);
      } else {
        assert v.jobs == w.jobs && v.flights == w.flights[n := v.flights[n]];
        assert v.log != w.log ==> v.log[..|v.log| - 1] == w.log;
        forall m | m in v.flights
          ensures StillHolds(w, v, m)
        {
          if m == n {
            DoneHolds(v, v.flights[n]);
          } else {
            SameJobsSameStore(w, v, v.flights[m].o.uid);
          }
        }
        VictimInvStays(w, v);
      }
    }
  }

  lemma SameJobsSameStore(w: World, v: World, uid: Uid)
    requires v.jobs == w.jobs
    requires v.log == w.log || (|v.log| > 0 && v.log[..|v.log| - 1] == w.log && !v.log[|v.log| - 1].JobCollected?)
    ensures SameStore(w, v, uid)
  {
    hide Collected;
    if v.log != w.log {
      assert v.log == w.log + [v.log[|v.log| - 1]];
      CollectedGrows(w.log, v.log[|v.log| - 1], uid);
    }
  }

  lemma DeleteHolds(w: World, n: string, a: Answers)
    requires StoreInv(w) && VictimInv(w)
    requires n in w.flights && w.flights[n].Found? && w.flights[n].job.Some?
    ensures VictimInv(DeleteJobStep(w, n, w.flights[n].o, w.flights[n].job.value, a))
  {
    hide StoreInv, VictimInv, FlightHolds, Collected, Stopped, IsForeign, InStore;
    var Found(o, found) := w.flights[n];
    var v := DeleteJobStep(w, n, o, found.value, a);
    assert v.log != w.log ==> v.log[..|v.log| - 1] == w.log;
    if found.value.name in w.jobs {
      VictimIs(w, n);
    }
    forall m | m in v.flights
      ensures StillHolds(w, v, m)
    {
      if m == n {
        DoneHolds(v, v.flights[n]);
      } else {
        OtherStoreStays(w, v, n, m);
      }
    }
    VictimInvStays(w, v);
  }

  /** What is deleted is the object's own Job, or one was collected and this is a foreign one. */
  lemma VictimIs(w: World, n: string)
    requires StoreInv(w) && VictimInv(w)
    requires n in w.flights && w.flights[n].Found? && w.flights[n].job.Some?
    requires w.flights[n].job.value.name in w.jobs
    ensures IsForeign(w.jobs[w.flights[n].job.value.name]) <==> Collected(w.log, w.flights[n].o.uid)
    ensures w.jobs[w.flights[n].job.value.name].name == w.flights[n].job.value.name
  {
    hide ObjectsOk, OneJobEach, VictimsOk, Collected, NamedFor, IsSucceeded, IsFailed, OwnsNone;
    var job := w.flights[n].job.value;
    assert FlightOk(w, n, w.flights[n]) && FlightHolds(w, w.flights[n]);
    assert !IsForeign(w.jobs[job.name]) ==> InStore(w, w.flights[n].o.uid, job.name);
  }

  /** Deleting a Job takes none of another reconcile's object. */
  lemma OtherStoreStays(w: World, v: World, n: string, m: string)
    requires StoreInv(w) && m != n && m in w.flights
    requires n in w.flights && w.flights[n].Found? && w.flights[n].job.Some?
    requires v.jobs == w.jobs || v.jobs == w.jobs - {w.flights[n].job.value.name}
    requires v.log == w.log || (|v.log| > 0 && v.log[..|v.log| - 1] == w.log && !v.log[|v.log| - 1].JobCollected?)
    ensures SameStore(w, v, w.flights[m].o.uid)
  {
    hide ObjectsOk, OneJobEach, Collected, NamedFor, OwnsNone, StillOwn;
    var uid := w.flights[m].o.uid;
    var name := w.flights[n].job.value.name;
    SameJobsSameStore(w, w.(log := v.log), uid);
    assert FlightOk(w, n, w.flights[n]) && FlightOk(w, m, w.flights[m]);
    if name in w.jobs && OwnedBy(w.jobs[name], uid) {
      NamesDiffer(name, n, m);
    }
  }

  lemma VictimInvStep(p: Params, w: World, action: Action)
    requires StoreInv(w) && CollectionsOk(w) && VictimInv(w)
    ensures VictimInv(Step(p, w, action))
  {
    hide StoreInv, CollectionsOk, VictimInv, CreateStep, UpdateStep, CollectStep, ForeignCreateStep,
         ForeignDeleteStep, RunJobStep, FetchStep, LookStep, ActStep, CreateJobStep, WriteStep;
    match action
    case CollectJob(n) => CollectHolds(w, n);
    case Fetch(n) => FetchHolds(p, w, n);
    case Look(n, a, items) => LookHolds(p, w, n, a, items);
    case Act(n, a) => ActHolds(p, w, n, a);
    case Create(n, a) => CreateJobHolds(p, w, n, a);
    case _ => OthersHold(p, w, action);
  }

  lemma {:induction false} VictimsAlwaysOk(p: Params, w: World, actions: seq<Action>)
    requires StoreInv(w) && StatusInv(w) && RerunInv(p, w) && VictimInv(w)
    ensures VictimInv(Run(p, w, actions))
    decreases |actions|
  {
    hide StoreInv, StatusInv, CreationsOk, NoReruns, CollectionsOk, NamesOk, VictimInv, Step;
    if actions != [] {
      StoreInvStep(p, w, actions[0]);
      StatusInvStep(p, w, actions[0]);
      RerunInvStep(p, w, actions[0]);
      VictimInvStep(p, w, actions[0]);
      VictimsAlwaysOk(p, Step(p, w, actions[0]), actions[1..]);
    }
  }

  // ---------- What it gives ----------

  /** In every run, the operator deletes the Job that the object owns, exactly unless one was garbage collected
      before: then the object is gone for good, and what is deleted is a foreign Job that took the name. */
  lemma VictimIsOwnUnlessCollected(p: Params, actions: seq<Action>, k: nat)
    requires k < |Run(p, INIT, actions).log| && Run(p, INIT, actions).log[k].JobDeleted?
    ensures
      var w := Run(p, INIT, actions);
      var e := w.log[k];
      && (IsForeign(e.victim) <==> Collected(w.log[..k], e.o.uid))
      && (IsForeign(e.victim) ==> !Live(w, e.o.uid))
      && (!IsForeign(e.victim) ==> e.victim.owners == [e.o.uid])
      && e.victim.name == e.seen.name
  {
    hide Run, StoreInv, StatusInv, IsForeign, JobName, Live;
    VictimsFromStart(p, actions);
    HistoryFromStart(p, actions);
    var w := Run(p, INIT, actions);
    assert VictimOk(w.log, k);
    assert Justified(p, w.log, w.log[k]);
    if Collected(w.log[..k], w.log[k].o.uid) {
      DeleterIsUpgrade(w, w.log[k]);
      CollectedIsGone(w, k, w.log[k].o.uid);
    }
  }

  lemma DeleterIsUpgrade(w: World, e: Event)
    requires StoreInv(w) && NamesOk(w) && e in w.log && e.JobDeleted?
    ensures e.o.uid.UpgradeUid?
  {
    hide JobsOk, OneJobEach, FlightsOk;
  }

  lemma CollectedIsGone(w: World, k: nat, uid: Uid)
    requires CollectionsOk(w) && k <= |w.log| && Collected(w.log[..k], uid) && uid.UpgradeUid?
    ensures !Live(w, uid)
  {
    hide Live, OwnedBy;
    var e :| e in w.log[..k] && e.JobCollected? && OwnedBy(e.job, uid);
    assert e in w.log;
  }

  lemma VictimsFromStart(p: Params, actions: seq<Action>)
    ensures VictimInv(Run(p, INIT, actions))
    ensures CollectionsOk(Run(p, INIT, actions)) && NamesOk(Run(p, INIT, actions))
  {
    hide Run;
    VictimsAlwaysOk(p, INIT, actions);
    RerunFromStart(p, actions);
  }
}
