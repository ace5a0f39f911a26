/** An unchanged spec is never migrated twice. */
module Reruns {
  import opened Types
  import opened Decision
  import opened Protocol
  import opened StoreSafety
  import opened StatusSafety
  import opened History

  /** A Job of this name and owner was deleted by a reconcile that had read another spec hash, or was
      garbage collected. */
  ghost predicate RemovedBy(p: Params, e: Event, uid: Uid, jobName: string) {
    || (e.JobDeleted? && e.o.uid == uid && e.seen.name == jobName && ExpectedName(p, e.o) != jobName)
    || (e.JobCollected? && OwnedBy(e.job, uid) && e.job.name == jobName)
  }

  ghost predicate RemovedBetween(p: Params, log: seq<Event>, i: nat, k: nat, uid: Uid, jobName: string)
    requires k <= |log|
  {
    exists j :: i < j < k && RemovedBy(p, log[j], uid, jobName)
  }

  predicate InStore(w: World, uid: Uid, jobName: string) {
    jobName in w.jobs && OwnedBy(w.jobs[jobName], uid)
  }

  /** What became of each Job that was created: it is still there or it was removed. */
  ghost predicate CreationsOk(p: Params, w: World) {
    forall i | 0 <= i < |w.log| && w.log[i].JobCreated? ::
      && w.log[i].o.uid.UpgradeUid?
      && (InStore(w, w.log[i].o.uid, w.log[i].job.name) ||
          RemovedBetween(p, w.log, i, |w.log|, w.log[i].o.uid, w.log[i].job.name))
  }

  ghost predicate SameJob(e: Event, f: Event) {
    e.JobCreated? && f.JobCreated? && e.o.uid == f.o.uid && e.job.name == f.job.name
  }

  ghost predicate SameOwner(e: Event, f: Event) {
    e.JobCreated? && f.JobCreated? && e.o.uid == f.o.uid
  }

  ghost predicate NoReruns(p: Params, log: seq<Event>) {
    forall i, k | 0 <= i < k < |log| && SameOwner(log[i], log[k]) ::
      RemovedBetween(p, log, i, k, log[i].o.uid, log[i].job.name)
  }

  /** Only the Jobs of objects that are gone for good were collected. */
  ghost predicate CollectionsOk(w: World) {
    forall e, u | e in w.log && e.JobCollected? && OwnedBy(e.job, u) && u.UpgradeUid? :: u in w.keys && !Live(w, u)
  }

  /** The objects that the creations and deletions were made for carry their own names. */
  ghost predicate NamesOk(w: World) {
    forall e | e in w.log && (e.JobCreated? || e.JobDeleted?) :: e.o.uid in w.keys && w.keys[e.o.uid] == e.o.name
  }

  ghost predicate RerunInv(p: Params, w: World) {
    CreationsOk(p, w) && NoReruns(p, w.log) && CollectionsOk(w) && NamesOk(w)
  }

  // ---------- The history grows ----------

  lemma RemovedStays(p: Params, log: seq<Event>, e: Event, i: nat, k: nat, uid: Uid, jobName: string)
    requires k <= |log| && RemovedBetween(p, log, i, k, uid, jobName)
    ensures RemovedBetween(p, log + [e], i, k, uid, jobName)
    ensures RemovedBetween(p, log + [e], i, |log| + 1, uid, jobName)
  {
    hide RemovedBy;
    var j :| i < j < k && RemovedBy(p, log[j], uid, jobName);
    assert (log + [e])[j] == log[j];
  }

  lemma NoRerunsStays(p: Params, log: seq<Event>, e: Event)
    requires NoReruns(p, log)
    requires forall i | 0 <= i < |log| && SameOwner(log[i], e) ::
               RemovedBetween(p, log, i, |log|, log[i].o.uid, log[i].job.name)
    ensures NoReruns(p, log + [e])
  {
    hide RemovedBetween;
    var more := log + [e];
    forall i, k | 0 <= i < k < |more| && SameOwner(more[i], more[k])
      ensures RemovedBetween(p, more, i, k, more[i].o.uid, more[i].job.name)
    {
      RemovedStays(p, log, e, i, k, log[i].o.uid, log[i].job.name);
    }
  }

  /** An event that creates nothing, after which every Job that is no longer there was removed by it. */
  lemma CreationsStay(p: Params, w: World, v: World, e: Event)
    requires CreationsOk(p, w) && v.log == w.log + [e] && !e.JobCreated?
    requires forall u, m | InStore(w, u, m) && u.UpgradeUid? :: InStore(v, u, m) || RemovedBy(p, e, u, m)
    ensures CreationsOk(p, v)
  {
    hide RemovedBy, InStore;
    forall i | 0 <= i < |v.log| && v.log[i].JobCreated?
      ensures
        && v.log[i].o.uid.UpgradeUid?
        && (InStore(v, v.log[i].o.uid, v.log[i].job.name) ||
            RemovedBetween(p, v.log, i, |v.log|, v.log[i].o.uid, v.log[i].job.name))
    {
      var u, m := w.log[i].o.uid, w.log[i].job.name;
      assert v.log[i] == w.log[i];
      if RemovedBetween(p, w.log, i, |w.log|, u, m) {
        RemovedStays(p, w.log, e, i, |w.log|, u, m);
      } else {
        assert InStore(w, u, m);
        assert v.log[|w.log|] == e;
      }
    }
  }

  /** A step that records nothing and takes no DBUpgrade's Job away. */
  lemma QuietCreations(p: Params, w: World, v: World)
    requires CreationsOk(p, w) && v.log == w.log
    requires forall u, m | InStore(w, u, m) && u.UpgradeUid? :: InStore(v, u, m)
    ensures CreationsOk(p, v)
  {
    hide RemovedBetween, InStore;
  }

  lemma QuietStep(p: Params, w: World, v: World)
    requires RerunInv(p, w) && v.log == w.log
    requires forall u, m | InStore(w, u, m) && u.UpgradeUid? :: InStore(v, u, m)
    requires forall u | u in w.keys :: u in v.keys && v.keys[u] == w.keys[u] && (Live(v, u) ==> Live(w, u))
    ensures RerunInv(p, v)
  {
    hide CreationsOk, NoReruns, InStore, Live;
    QuietCreations(p, w, v);
  }

  /** A step that records one event which is no creation. */
  lemma RecordedStep(p: Params, w: World, v: World, e: Event)
    requires RerunInv(p, w) && v.log == w.log + [e] && !e.JobCreated?
    requires forall u, m | InStore(w, u, m) && u.UpgradeUid? :: InStore(v, u, m) || RemovedBy(p, e, u, m)
    requires forall u | u in w.keys :: u in v.keys && v.keys[u] == w.keys[u] && (Live(v, u) ==> Live(w, u))
    requires e.JobCollected? ==> forall u | OwnedBy(e.job, u) && u.UpgradeUid? :: u in w.keys && !Live(w, u)
    requires e.JobDeleted? ==> e.o.uid in w.keys && w.keys[e.o.uid] == e.o.name
    ensures RerunInv(p, v)
  {
    hide CreationsOk, NoReruns, InStore, Live, RemovedBy;
    CreationsStay(p, w, v, e);
    NoRerunsStays(p, w.log, e);
  }

  // ---------- The steps ----------

  ghost predicate Forward(w: World, v: World) {
    forall u | u in w.keys :: u in v.keys && v.keys[u] == w.keys[u] && (Live(v, u) ==> Live(w, u))
  }

  lemma GoesForward(p: Params, w: World, action: Action)
    requires StoreInv(w) && StatusInv(w)
    ensures Forward(w, Step(p, w, action))
  {
    hide StoreInv, StatusInv, Step, Live;
    forall u | u in w.keys
      ensures u in Step(p, w, action).keys && Step(p, w, action).keys[u] == w.keys[u]
      ensures Live(Step(p, w, action), u) ==> Live(w, u)
    {
      StepGoesForward(p, w, action, u);
    }
  }

  lemma CollectIsNoRerun(p: Params, w: World, n: string)
    requires StoreInv(w) && RerunInv(p, w)
    ensures RerunInv(p, CollectStep(w, n))
  {
    hide ObjectsOk, OneJobEach, FlightsOk, RerunInv, NamedFor;
    var v := CollectStep(w, n);
    if v != w {
      RecordedStep(p, w, v, JobCollected(w.jobs[n]));
    }
  }

  lemma DeleteIsNoRerun(p: Params, w: World, n: string, a: Answers)
    requires StoreInv(w) && RerunInv(p, w)
    requires n in w.flights && w.flights[n].Found? && w.flights[n].job.Some?
    requires w.flights[n].job.value.name != ExpectedName(p, w.flights[n].o)
    ensures RerunInv(p, DeleteJobStep(w, n, w.flights[n].o, w.flights[n].job.value, a))
  {
    hide ObjectsOk, JobsOk, OneJobEach, RerunInv, NamedFor, ExpectedName, IsSucceeded, IsFailed, Stopped;
    assert FlightOk(w, n, w.flights[n]);
    var Found(o, found) := w.flights[n];
    var v := DeleteJobStep(w, n, o, found.value, a);
    if found.value.name in w.jobs && a.deleted.TakesEffect() {
      RecordedStep(p, w, v, JobDeleted(o, found.value, w.jobs[found.value.name]));
    } else {
      QuietStep(p, w, v);
    }
  }

  lemma ActIsNoRerun(p: Params, w: World, n: string, a: Answers)
    requires StoreInv(w) && RerunInv(p, w)
    ensures RerunInv(p, ActStep(p, w, n, a))
  {
    hide StoreInv, RerunInv, DeleteJobStep, PreChecksResult, SyncResult, ExpectedName, IsRunning, InProgress,
         OwnedBy, RemovedBy;
    if n in w.flights && w.flights[n].Found? {
      var Found(o, found) := w.flights[n];
      var v := ActStep(p, w, n, a);
      if found.None? || (found.value.name != ExpectedName(p, o) && IsRunning(found.value)) {
        QuietStep(p, w, v);
      } else if found.value.name == ExpectedName(p, o) {
        RecordedStep(p, w, v, Synced(o, found.value, w.now, a, SyncResult(p, o, found.value, w.now, a)));
      } else {
        DeleteIsNoRerun(p, w, n, a);
      }
    }
  }

  lemma CreateJobIsNoRerun(p: Params, w: World, n: string, a: Answers)
    requires StoreInv(w) && RerunInv(p, w)
    ensures RerunInv(p, CreateJobStep(p, w, n, a))
  {
    hide ObjectsOk, JobsOk, OneJobEach, RerunInv, NamedFor, ExpectedName, Stopped, InProgress;
    if n in w.flights && w.flights[n].Cleared? {
      var v := CreateJobStep(p, w, n, a);
      var o := w.flights[n].o;
      assert FlightOk(w, n, w.flights[n]);
      if v.log == w.log {
        QuietStep(p, w, v);
      } else {
        NewCreation(p, w, v, JobCreated(o, NewJob(p, o), w.flights[n].answers));
      }
    }
  }

  /** A Job is created for an object that owns none: all the Jobs created for it before were removed. */
  lemma NewCreation(p: Params, w: World, v: World, e: Event)
    requires RerunInv(p, w) && e.JobCreated? && OwnsNone(w, e.o.uid) && e.o.uid.UpgradeUid?
    requires v.log == w.log + [e] && v.keys == w.keys && v.objects == w.objects
    requires v.jobs == w.jobs[e.job.name := e.job] && e.job.name !in w.jobs && OwnedBy(e.job, e.o.uid)
    requires e.o.uid in w.keys && w.keys[e.o.uid] == e.o.name
    ensures RerunInv(p, v)
  {
    hide RemovedBy;
    NoRerunsStays(p, w.log, e);
    forall i | 0 <= i < |v.log| && v.log[i].JobCreated?
      ensures
        && v.log[i].o.uid.UpgradeUid?
        && (InStore(v, v.log[i].o.uid, v.log[i].job.name) ||
            RemovedBetween(p, v.log, i, |v.log|, v.log[i].o.uid, v.log[i].job.name))
    {
      if i < |w.log| {
        assert v.log[i] == w.log[i];
        var u, m := w.log[i].o.uid, w.log[i].job.name;
        if !InStore(w, u, m) {
          RemovedStays(p, w.log, e, i, |w.log|, u, m);
        }
      }
    }
  }

  lemma RerunInvStep(p: Params, w: World, action: Action)
    requires StoreInv(w) && StatusInv(w) && RerunInv(p, w)
    ensures RerunInv(p, Step(p, w, action))
  {
    hide StoreInv, StatusInv, RerunInv, CreateStep, UpdateStep, CollectStep, ForeignCreateStep, ForeignDeleteStep,
         RunJobStep, FetchStep, LookStep, ActStep, CreateJobStep, WriteStep;
    match action
    case CollectJob(n) => CollectIsNoRerun(p, w, n);
    case Act(n, a) => ActIsNoRerun(p, w, n, a);
    case Create(n, a) => CreateJobIsNoRerun(p, w, n, a);
    case _ => OthersAreNoRerun(p, w, action);
  }

  lemma OthersAreNoRerun(p: Params, w: World, action: Action)
    requires StoreInv(w) && StatusInv(w) && RerunInv(p, w)
    requires !action.CollectJob? && !action.Act? && !action.Create?
    ensures RerunInv(p, Step(p, w, action))
  {
    hide StoreInv, StatusInv, RerunInv, CollectStep, ActStep, CreateJobStep, Live, NewStatus, IsSucceeded, IsFailed,
         EarlyResult, FirstOwned, Lists;
    GoesForward(p, w, action);
    AtMostRecorded(p, w, Step(p, w, action));
  }

  lemma AtMostRecorded(p: Params, w: World, v: World)
    requires RerunInv(p, w) && Forward(w, v)
    requires v.log == w.log ||
      (|v.log| == |w.log| + 1 && v.log == w.log + [v.log[|w.log|]] &&
       (v.log[|w.log|].Stored? || v.log[|w.log|].JobCompleted? || v.log[|w.log|].Landed?))
    requires forall u, m | InStore(w, u, m) && u.UpgradeUid? :: InStore(v, u, m)
    ensures RerunInv(p, v)
  {
    hide RerunInv, InStore, Live, RemovedBy;
    if v.log == w.log {
      QuietStep(p, w, v);
    } else {
      RecordedStep(p, w, v, v.log[|w.log|]);
    }
  }

  lemma {:induction false} RerunAlways(p: Params, w: World, actions: seq<Action>)
    requires StoreInv(w) && StatusInv(w) && RerunInv(p, w)
    ensures RerunInv(p, Run(p, w, actions))
    decreases |actions|
  {
    hide StoreInv, StatusInv, RerunInv, Step;
    if actions != [] {
      StoreInvStep(p, w, actions[0]);
      StatusInvStep(p, w, actions[0]);
      RerunInvStep(p, w, actions[0]);
      RerunAlways(p, Step(p, w, actions[0]), actions[1..]);
    }
  }

  lemma RerunFromStart(p: Params, actions: seq<Action>)
    ensures RerunInv(p, Run(p, INIT, actions))
  {
    hide Run;
    RerunAlways(p, INIT, actions);
  }

  // ---------- What it gives ----------

  /** Migrations of an object are serial: in every run, between any two creations of Jobs for the same object,
      whatever the specs, the first Job was deleted by a reconcile that had read a spec for which it was stale, or
      was garbage collected when the object was gone for good. */
  lemma MigrationsAreSerial(p: Params, actions: seq<Action>, i: nat, k: nat) returns (j: nat)
    requires i < k < |Run(p, INIT, actions).log|
    requires SameOwner(Run(p, INIT, actions).log[i], Run(p, INIT, actions).log[k])
    ensures i < j < k
    ensures
      var w := Run(p, INIT, actions);
      var created, removed := w.log[i], w.log[j];
      && RemovedBy(p, removed, created.o.uid, created.job.name)
      && (removed.JobCollected? ==> !Live(w, created.o.uid))
  {
    hide Run, JobName, StoreInv, Live;
    RerunFromStart(p, actions);
    var w := Run(p, INIT, actions);
    var created := w.log[i];
    j :| i < j < k && RemovedBy(p, w.log[j], created.o.uid, created.job.name);
    assert created.o.uid.UpgradeUid? && w.log[j] in w.log;
  }

  /** In every run, between two creations of a Job for the same object and spec hash, a reconcile that had
      read a spec with another hash deleted the first one; or else it was garbage collected, and the object
      is gone for good. */
  lemma UnchangedSpecIsNotMigratedTwice(p: Params, actions: seq<Action>, i: nat, k: nat) returns (j: nat)
    requires i < k < |Run(p, INIT, actions).log|
    requires SameJob(Run(p, INIT, actions).log[i], Run(p, INIT, actions).log[k])
    ensures i < j < k
    ensures
      var w := Run(p, INIT, actions);
      var created, removed := w.log[i], w.log[j];
      || (&& removed.JobDeleted?
          && removed.o.uid == created.o.uid && removed.seen.name == created.job.name
          && p.hash(removed.o.spec) != p.hash(created.o.spec))
      || (&& removed.JobCollected?
          && OwnedBy(removed.job, created.o.uid) && removed.job.name == created.job.name
          && !Live(w, created.o.uid))
  {
    hide Run, JobName, StoreInv, Live;
    HistoryFromStart(p, actions);
    RerunFromStart(p, actions);
    j := MigrationsAreSerial(p, actions, i, k);
    var w := Run(p, INIT, actions);
    var created := w.log[i];
    assert created in w.log && w.log[j] in w.log;
    assert Justified(p, w.log, created);
  }
}
