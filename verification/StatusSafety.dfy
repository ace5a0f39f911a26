/** What the status of an object says, in every run. */
module StatusSafety {
  import opened Types
  import opened Conditions
  import opened Decision
  import opened Protocol
  import opened StoreSafety
  import VersionGate
  import MetricGate

  /** A status as the README describes it: one condition of each type, never both Ready and Progressing,
      all of them about the observed generation, which is no later than the object's. */
  ghost predicate StatusOk(o: DBUpgrade) {
    var s := o.status;
    && UniqueTypes(s.conditions)
    && (forall c | c in s.conditions ::
          (c.kind == Ready || c.kind == Progressing) && c.observedGeneration == s.observedGeneration)
    && !(IsTrue(s.conditions, Ready) && IsTrue(s.conditions, Progressing))
    && 0 <= s.observedGeneration <= o.generation
  }

  /** What a reconcile is about to write is not both. */
  ghost predicate ResultOk(r: ReconcileResult) {
    !(r.ready && r.progressing)
  }

  ghost predicate StatusInv(w: World) {
    && (forall n | n in w.objects :: StatusOk(w.objects[n]))
    && (forall n | n in w.flights && w.flights[n].Done? :: ResultOk(w.flights[n].result))
  }

  /** The status that updateStatus makes of a well-formed one. */
  lemma NewStatusIsOk(o: DBUpgrade, r: ReconcileResult, now: Time)
    requires StatusOk(o) && ResultOk(r)
    ensures
      var s := NewStatus(o, r, now);
      && StatusOk(o.(status := s))
      && s.observedGeneration == o.generation
      && (IsTrue(s.conditions, Ready) <==> r.ready)
      && (IsTrue(s.conditions, Progressing) <==> r.progressing)
      && (exists c :: c in s.conditions && c.kind == Ready)
      && (exists c :: c in s.conditions && c.kind == Progressing)
      && (forall c | c in s.conditions && c.kind == Ready ::
            c.status == (if r.ready then ConditionTrue else ConditionFalse) && c.reason == r.readyReason)
      && (forall c | c in s.conditions && c.kind == Progressing ::
            c.status == (if r.progressing then ConditionTrue else ConditionFalse) && c.reason == r.progressReason)
      && (var kept := if r.jobCompletedAt.Some? then r.jobCompletedAt else o.status.jobCompletedAt;
          if kept.None? then s.jobCompletedAt.None?
          else
            && s.jobCompletedAt.Some? && s.jobCompletedAt.value % 1_000_000_000 == 0
            && kept.value - 1_000_000_000 < s.jobCompletedAt.value <= kept.value)
  {
    hide WithCondition;
    var readied := WithCondition(o.status.conditions, Ready, r.ready, r.readyReason, o.generation, now);
    SetConditionMeaning(o.status.conditions, Ready, r.ready, r.readyReason, o.generation, now);
    SetConditionMeaning(readied, Progressing, r.progressing, r.progressReason, o.generation, now);
    var s := NewStatus(o, r, now);
    assert IsTrue(readied, Ready) <==> IsTrue(s.conditions, Ready) by {
      assert forall c: Condition | c.kind == Ready :: c in s.conditions <==> c in readied;
    }
  }

  lemma ResultsAreOk(p: Params, o: DBUpgrade, a: Answers)
    ensures forall j, now :: ResultOk(SyncResult(p, o, j, now, a))
    ensures ResultOk(PreChecksResult(p, o.spec, a))
    ensures EarlyResult(o.spec, a).Some? ==> ResultOk(EarlyResult(o.spec, a).value)
  {
    hide VersionGate.VerdictOnAll, MetricGate.VerdictOnAll, BakeWait;
  }

  lemma StatusInvStep(p: Params, w: World, action: Action)
    requires StoreInv(w) && StatusInv(w)
    ensures StatusInv(Step(p, w, action))
  {
    hide StoreInv, StatusOk, CreateStep, UpdateStep, WriteStep, LookStep, ActStep, CreateJobStep;
    match action
    case CreateObject(n, spec) => UsersKeepStatus(p, w, n, spec);
    case UpdateObject(n, spec) => UsersKeepStatus(p, w, n, spec);
    case Look(n, a, items) => OperatorKeepsStatus(p, w, n, a, items);
    case Act(n, a) => OperatorKeepsStatus(p, w, n, a, []);
    case Create(n, a) => OperatorKeepsStatus(p, w, n, a, []);
    case Write(n, a) => WriteKeepsStatus(w, n, a);
    case _ =>
  }

  lemma UsersKeepStatus(p: Params, w: World, n: string, spec: Spec)
    requires StatusInv(w)
    ensures StatusInv(CreateStep(p, w, n, spec))
    ensures StatusInv(UpdateStep(p, w, n, spec))
  {
  }

  lemma OperatorKeepsStatus(p: Params, w: World, n: string, a: Answers, items: seq<Job>)
    requires StatusInv(w)
    ensures StatusInv(LookStep(p, w, n, a, items))
    ensures StatusInv(ActStep(p, w, n, a))
    ensures StatusInv(CreateJobStep(p, w, n, a))
  {
    hide StatusOk, PreChecksResult, SyncResult, EarlyResult, ExpectedName, IsRunning;
    if n in w.flights {
      ResultsAreOk(p, w.flights[n].o, a);
    }
  }

  lemma WriteKeepsStatus(w: World, n: string, a: Answers)
    requires StoreInv(w) && StatusInv(w)
    ensures StatusInv(WriteStep(w, n, a))
    ensures Lands(w, n, a) ==>
      var s := WriteStep(w, n, a).objects[n].status;
      var Done(o, r) := w.flights[n];
      && w.objects[n] == o
      && s.observedGeneration == w.objects[n].generation
      && (IsTrue(s.conditions, Ready) <==> r.ready)
      && (IsTrue(s.conditions, Progressing) <==> r.progressing)
  {
    hide StatusOk, NewStatus, ObjectsOk, JobsOk, OneJobEach, OwnsNone, StillOwn;
    if Lands(w, n, a) {
      assert FlightOk(w, n, w.flights[n]);
      assert StatusOk(w.objects[n]);
      NewStatusIsOk(w.objects[n], w.flights[n].result, w.now);
      var status := NewStatus(w.flights[n].o, w.flights[n].result, w.now);
      StatusIgnoresVersion(w.objects[n].(status := status), w.nextVersion);
    }
  }

  lemma StatusIgnoresVersion(o: DBUpgrade, version: nat)
    ensures StatusOk(o.(resourceVersion := version)) <==> StatusOk(o)
  {
  }

  /** The status is well formed in every run. */
  lemma {:induction false} StatusAlwaysOk(p: Params, w: World, actions: seq<Action>)
    requires StoreInv(w) && StatusInv(w)
    ensures StoreInv(Run(p, w, actions)) && StatusInv(Run(p, w, actions))
    decreases |actions|
  {
    hide StoreInv, StatusInv, Step;
    if actions != [] {
      StoreInvStep(p, w, actions[0]);
      StatusInvStep(p, w, actions[0]);
      StatusAlwaysOk(p, Step(p, w, actions[0]), actions[1..]);
    }
  }

  lemma StatusOkFromStart(p: Params, actions: seq<Action>)
    ensures StoreInv(Run(p, INIT, actions)) && StatusInv(Run(p, INIT, actions))
  {
    StatusAlwaysOk(p, INIT, actions);
  }

  // ---------- The observed generation never goes back ----------

  ghost predicate NoStepBack(w: World, v: World, uid: Uid) {
    Live(w, uid) && Live(v, uid) ==>
      && w.objects[w.keys[uid]].status.observedGeneration <= v.objects[v.keys[uid]].status.observedGeneration
      && w.objects[w.keys[uid]].generation <= v.objects[v.keys[uid]].generation
  }

  lemma OperatorKeepsObjects(p: Params, w: World, n: string, a: Answers, items: seq<Job>)
    ensures LookStep(p, w, n, a, items).objects == w.objects && LookStep(p, w, n, a, items).keys == w.keys
    ensures ActStep(p, w, n, a).objects == w.objects && ActStep(p, w, n, a).keys == w.keys
    ensures CreateJobStep(p, w, n, a).objects == w.objects && CreateJobStep(p, w, n, a).keys == w.keys
  {
    hide PreChecksResult, SyncResult, EarlyResult, ExpectedName, IsRunning, Stopped, InProgress, Lists, FirstOwned;
  }

  lemma UsersGoForward(p: Params, w: World, n: string, spec: Spec, uid: Uid)
    requires ObjectsOk(w) && uid in w.keys
    ensures NoStepBack(w, CreateStep(p, w, n, spec), uid)
    ensures Live(CreateStep(p, w, n, spec), uid) ==> Live(w, uid)
    ensures NoStepBack(w, UpdateStep(p, w, n, spec), uid)
    ensures Live(UpdateStep(p, w, n, spec), uid) ==> Live(w, uid)
  {
  }

  lemma WriteGoesForward(w: World, n: string, a: Answers, uid: Uid)
    requires StoreInv(w) && StatusInv(w) && uid in w.keys
    ensures NoStepBack(w, WriteStep(w, n, a), uid)
    ensures Live(WriteStep(w, n, a), uid) ==> Live(w, uid)
  {
    hide JobsOk, OneJobEach, OwnsNone, StillOwn;
    if Lands(w, n, a) {
      assert FlightOk(w, n, w.flights[n]);
      assert StatusOk(w.objects[n]);
    }
  }

  lemma StepGoesForward(p: Params, w: World, action: Action, uid: Uid)
    requires StoreInv(w) && StatusInv(w) && uid in w.keys
    ensures NoStepBack(w, Step(p, w, action), uid)
    ensures uid in Step(p, w, action).keys && Step(p, w, action).keys[uid] == w.keys[uid]
    ensures Live(Step(p, w, action), uid) ==> Live(w, uid)
  {
    hide JobsOk, OneJobEach, FlightsOk, StatusInv, NoStepBack, Live, LookStep, ActStep, CreateJobStep, WriteStep,
         UpdateStep, CreateStep, CollectStep, ForeignCreateStep, ForeignDeleteStep, RunJobStep, FetchStep;
    match action
    case CreateObject(n, spec) => UsersGoForward(p, w, n, spec, uid); NewUid(p, w, n, spec, uid);
    case UpdateObject(n, spec) => UsersGoForward(p, w, n, spec, uid); KeysStay(p, w, action);
    case Look(n, a, items) => OperatorKeepsObjects(p, w, n, a, items); SameObjectsForward(w, Step(p, w, action), uid);
    case Act(n, a) => OperatorKeepsObjects(p, w, n, a, []); SameObjectsForward(w, Step(p, w, action), uid);
    case Create(n, a) => OperatorKeepsObjects(p, w, n, a, []); SameObjectsForward(w, Step(p, w, action), uid);
    case Write(n, a) => WriteGoesForward(w, n, a, uid); KeysStay(p, w, action);
    case DeleteObject(n) => DeletingGoesForward(p, w, n, uid);
    case _ => TheRestKeepsObjects(p, w, action); SameObjectsForward(w, Step(p, w, action), uid);
  }

  lemma SameObjectsForward(w: World, v: World, uid: Uid)
    requires v.objects == w.objects && v.keys == w.keys
    ensures NoStepBack(w, v, uid)
    ensures Live(v, uid) ==> Live(w, uid)
  {
  }

  lemma NewUid(p: Params, w: World, n: string, spec: Spec, uid: Uid)
    requires ObjectsOk(w) && uid in w.keys
    ensures uid in CreateStep(p, w, n, spec).keys && CreateStep(p, w, n, spec).keys[uid] == w.keys[uid]
  {
  }

  lemma DeletingGoesForward(p: Params, w: World, n: string, uid: Uid)
    requires ObjectsOk(w)
    ensures NoStepBack(w, Step(p, w, DeleteObject(n)), uid)
    ensures Step(p, w, DeleteObject(n)).keys == w.keys
    ensures Live(Step(p, w, DeleteObject(n)), uid) ==> Live(w, uid)
  {
  }

  lemma TheRestKeepsObjects(p: Params, w: World, action: Action)
    requires action.CollectJob? || action.ForeignCreate? || action.ForeignDelete? || action.RunJob? || action.Tick? ||
             action.Fetch? || action.Crash?
    ensures Step(p, w, action).objects == w.objects && Step(p, w, action).keys == w.keys
  {
    hide Live, IsSucceeded, Later;
  }

  lemma KeysStay(p: Params, w: World, action: Action)
    requires action.UpdateObject? || action.Write?
    ensures Step(p, w, action).keys == w.keys
  {
    hide NewStatus;
  }

  /** Between any two points of a run at which a DBUpgrade exists, its observed generation and its
      generation do not decrease; and one that is gone never comes back. */
  lemma {:induction false} NeverGoesBack(p: Params, w: World, actions: seq<Action>, uid: Uid)
    requires StoreInv(w) && StatusInv(w) && uid in w.keys
    ensures NoStepBack(w, Run(p, w, actions), uid)
    ensures Live(Run(p, w, actions), uid) ==> Live(w, uid)
    decreases |actions|
  {
    hide StoreInv, StatusInv, Step, Live;
    if actions != [] {
      StoreInvStep(p, w, actions[0]);
      StatusInvStep(p, w, actions[0]);
      StepGoesForward(p, w, actions[0], uid);
      NeverGoesBack(p, Step(p, w, actions[0]), actions[1..], uid);
    }
  }
}
