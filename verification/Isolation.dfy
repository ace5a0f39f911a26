/** Reconciling one DBUpgrade does not touch what belongs to another. */
module Isolation {
  import opened Types
  import opened Decision
  import opened Protocol
  import opened StoreSafety

  /** A step that the operator makes for the object of this name. */
  predicate OperatorStep(action: Action, n: string) {
    match action
    case Fetch(m) => m == n
    case Look(m, _, _) => m == n
    case Act(m, _) => m == n
    case Create(m, _) => m == n
    case Write(m, _) => m == n
    case Crash(m) => m == n
    case _ => false
  }

  /** The Jobs of one owner. */
  ghost function JobsOf(w: World, uid: Uid): map<string, Job> {
    map m | m in w.jobs && OwnedBy(w.jobs[m], uid) :: w.jobs[m]
  }

  /** Everything that one DBUpgrade has in the store: itself and its Jobs. */
  ghost predicate SameFor(w: World, v: World, uid: Uid) {
    && JobsOf(v, uid) == JobsOf(w, uid)
    && Live(v, uid) == Live(w, uid)
    && (Live(w, uid) ==> v.objects[v.keys[uid]] == w.objects[w.keys[uid]])
    && uid in v.keys && uid in w.keys && v.keys[uid] == w.keys[uid]
  }

  /** A reconcile of this name is under way, if at all, for another DBUpgrade. */
  predicate NotInFlight(w: World, n: string, uid: Uid) {
    n in w.flights ==> w.flights[n].o.uid != uid
  }

  lemma DeletingIsIsolated(w: World, n: string, o: DBUpgrade, job: Job, a: Answers, uid: Uid)
    requires StoreInv(w)
    requires n in w.flights && w.flights[n] == Found(o, Some(job))
    requires uid in w.keys && uid != o.uid
    ensures SameFor(w, DeleteJobStep(w, n, o, job, a), uid)
  {
    hide ObjectsOk, OneJobEach, NamedFor, Stopped, IsSucceeded, IsFailed;
    assert FlightOk(w, n, w.flights[n]);
    var v := DeleteJobStep(w, n, o, job, a);
    if v.jobs != w.jobs && job.name in w.jobs {
      assert !OwnedBy(w.jobs[job.name], uid) by {
        UidIsIssued(w, uid);
        assert IsForeign(w.jobs[job.name]) || w.jobs[job.name].owners == [o.uid];
      }
    }
  }

  lemma UidIsIssued(w: World, uid: Uid)
    requires StoreInv(w) && uid in w.keys
    ensures uid.UpgradeUid?
  {
  }

  lemma CreatingIsIsolated(p: Params, w: World, n: string, a: Answers, uid: Uid)
    requires uid in w.keys && NotInFlight(w, n, uid)
    ensures SameFor(w, CreateJobStep(p, w, n, a), uid)
  {
    hide Stopped, InProgress, ExpectedName;
  }

  lemma WritingIsIsolated(w: World, n: string, a: Answers, uid: Uid)
    requires StoreInv(w)
    requires uid in w.keys && NotInFlight(w, n, uid)
    ensures SameFor(w, WriteStep(w, n, a), uid)
  {
    hide JobsOk, OneJobEach, NewStatus, OwnsNone, StillOwn;
    if n in w.flights {
      assert FlightOk(w, n, w.flights[n]);
    }
  }

  lemma ActingIsIsolated(p: Params, w: World, n: string, a: Answers, uid: Uid)
    requires StoreInv(w)
    requires uid in w.keys && NotInFlight(w, n, uid)
    ensures SameFor(w, ActStep(p, w, n, a), uid)
  {
    hide StoreInv, DeleteJobStep, PreChecksResult, SyncResult, ExpectedName, Stopped, InProgress, IsRunning;
    if n in w.flights && w.flights[n].Found? && w.flights[n].job.Some? {
      DeletingIsIsolated(w, n, w.flights[n].o, w.flights[n].job.value, a, uid);
    }
  }

  /** One step of a reconcile leaves every other DBUpgrade and all of its Jobs as they were, even one that
      had or has the same name. */
  lemma StepIsIsolated(p: Params, w: World, action: Action, n: string, uid: Uid)
    requires StoreInv(w) && OperatorStep(action, n)
    requires uid in w.keys && NotInFlight(w, n, uid)
    ensures SameFor(w, Step(p, w, action), uid)
  {
    hide StoreInv, ActStep, CreateJobStep, WriteStep, EarlyResult, Stopped;
    match action
    case Act(_, a) => ActingIsIsolated(p, w, n, a, uid);
    case Create(_, a) => CreatingIsIsolated(p, w, n, a, uid);
    case Write(_, a) => WritingIsIsolated(w, n, a, uid);
    case _ =>
  }

  /** Any number of reconciles of one object, whole or cut short, leave every DBUpgrade of another name and
      all of its Jobs as they were. */
  lemma {:induction false} ReconcilesAreIsolated(p: Params, w: World, actions: seq<Action>, n: string, uid: Uid)
    requires StoreInv(w)
    requires forall a | a in actions :: OperatorStep(a, n)
    requires uid in w.keys && w.keys[uid] != n
    ensures SameFor(w, Run(p, w, actions), uid)
    decreases |actions|
  {
    hide StoreInv, Step, OperatorStep;
    if actions != [] {
      var v := Step(p, w, actions[0]);
      OtherNameOtherUid(w, n, uid);
      StepIsIsolated(p, w, actions[0], n, uid);
      StoreInvStep(p, w, actions[0]);
      ReconcilesAreIsolated(p, v, actions[1..], n, uid);
    }
  }

  lemma OtherNameOtherUid(w: World, n: string, uid: Uid)
    requires StoreInv(w) && uid in w.keys && w.keys[uid] != n
    ensures NotInFlight(w, n, uid)
  {
    hide ObjectsOk, JobsOk, OneJobEach, OwnsNone, StillOwn;
    if n in w.flights {
      assert FlightOk(w, n, w.flights[n]);
    }
  }
}
