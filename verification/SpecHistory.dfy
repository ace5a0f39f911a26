/** The specs that an object has had, in every run: a generation has one spec, and with the webhook
    installed they are all sound and all name the same database. */
module SpecHistory {
  import opened Types
  import opened Decision
  import opened Protocol
  import opened StoreSafety
  import opened StatusSafety
  import opened History
  import opened Webhook
  import Semver
  import Conditions

  /** The generations of an object were numbered upwards, its current spec being the last. */
  ghost predicate GenerationsOk(w: World) {
    && (forall e | e in w.log && e.Stored? ::
          && e.uid in w.keys
          && (Live(w, e.uid) ==>
                var o := w.objects[w.keys[e.uid]];
                e.generation <= o.generation && (e.generation == o.generation ==> e.spec == o.spec)))
    && (forall e, f | e in w.log && f in w.log && e.Stored? && f.Stored? &&
                      e.uid == f.uid && e.generation == f.generation ::
          e.spec == f.spec)
  }

  /** What the webhook keeps. */
  ghost predicate AdmissionOk(p: Params, w: World) {
    p.webhook ==>
      && (forall e | e in w.log && e.Stored? :: SoundSpec(p.parse, e.spec))
      && (forall e, f | e in w.log && f in w.log && e.Stored? && f.Stored? && e.uid == f.uid ::
            TargetOf(e.spec.database) == TargetOf(f.spec.database))
  }

  /** Reconciling an object with this database can get as far as its Jobs. */
  predicate Attainable(t: Target) {
    match t.kind
    case SelfHosted => t.secret.Some?
    case AwsRds => t.aws.Some?
    case AwsAurora => t.aws.Some?
    case OtherDatabase(_) => false
  }

  lemma OnlyAttainableReachJobs(spec: Spec, a: Answers)
    ensures EarlyResult(spec, a).None? ==> Attainable(TargetOf(spec.database))
  {
  }

  /** Exactly these get to their Jobs, when the Secrets are in order and listing the Jobs succeeds. */
  lemma AttainableIffReached(spec: Spec, a: Answers)
    ensures ReachesJobs(spec, a) <==>
      && Attainable(TargetOf(spec.database))
      && (spec.database.kind == SelfHosted ==> a.secretReadable) && a.secretEnsured && a.listed
  {
  }

  ghost predicate AttainableOk(w: World) {
    && (forall n | n in w.flights && (w.flights[n].Found? || w.flights[n].Cleared?) ::
          Attainable(TargetOf(w.flights[n].o.spec.database)))
    && (forall e | e in w.log && e.JobCreated? :: Attainable(TargetOf(e.o.spec.database)))
  }

  ghost predicate SpecInv(p: Params, w: World) {
    GenerationsOk(w) && AdmissionOk(p, w) && AttainableOk(w)
  }

  predicate SameSpec(o: DBUpgrade, other: DBUpgrade) {
    o.uid == other.uid && o.generation == other.generation && o.spec == other.spec
  }

  /** A step that stores no spec. */
  lemma OtherStepsKeepSpecs(p: Params, w: World, v: World)
    requires GenerationsOk(w) && AdmissionOk(p, w)
    requires forall e: Event | e.Stored? :: e in v.log <==> e in w.log
    requires v.keys == w.keys
    requires forall n | n in v.objects :: n in w.objects && SameSpec(v.objects[n], w.objects[n])
    ensures GenerationsOk(v) && AdmissionOk(p, v)
  {
    hide SoundSpec, TargetOf;
  }

  lemma CreateKeepsSpecs(p: Params, w: World, n: string, spec: Spec)
    requires StoreInv(w) && GenerationsOk(w) && AdmissionOk(p, w)
    ensures GenerationsOk(CreateStep(p, w, n, spec)) && AdmissionOk(p, CreateStep(p, w, n, spec))
  {
    hide JobsOk, OneJobEach, FlightsOk, SoundSpec, TargetOf, AdmitsCreate;
    AdmittedIffSound(p.parse, spec);
  }

  lemma UpdateKeepsSpecs(p: Params, w: World, n: string, spec: Spec)
    requires StoreInv(w) && ObjectsRecorded(w) && GenerationsOk(w) && AdmissionOk(p, w)
    ensures GenerationsOk(UpdateStep(p, w, n, spec)) && AdmissionOk(p, UpdateStep(p, w, n, spec))
  {
    hide GenerationsOk, AdmissionOk;
    UpdateKeepsGenerations(p, w, n, spec);
    UpdateKeepsAdmission(p, w, n, spec);
  }

  lemma UpdateKeepsGenerations(p: Params, w: World, n: string, spec: Spec)
    requires ObjectsOk(w) && GenerationsOk(w)
    ensures GenerationsOk(UpdateStep(p, w, n, spec))
  {
    hide AdmitsUpdate;
  }

  lemma UpdateKeepsAdmission(p: Params, w: World, n: string, spec: Spec)
    requires ObjectsRecorded(w) && AdmissionOk(p, w)
    ensures AdmissionOk(p, UpdateStep(p, w, n, spec))
  {
    hide SoundSpec, TargetOf, AdmitsUpdate, Conditions.IsTrue, HasSuccess;
    if n in w.objects {
      UpdateAdmittedIff(p.parse, w.objects[n], spec);
      assert Recorded(w.log, w.objects[n]);
    }
  }

  /** What a step that is no user's does to the objects and the recorded specs: nothing. */
  ghost predicate StoresNothing(w: World, v: World) {
    && (forall e: Event | e.Stored? :: e in v.log <==> e in w.log)
    && v.keys == w.keys
    && (forall n | n in v.objects :: n in w.objects && SameSpec(v.objects[n], w.objects[n]))
  }

  lemma OperatorStoresNothing(p: Params, w: World, n: string, a: Answers, items: seq<Job>)
    ensures StoresNothing(w, LookStep(p, w, n, a, items))
    ensures StoresNothing(w, ActStep(p, w, n, a))
    ensures StoresNothing(w, CreateJobStep(p, w, n, a))
    ensures StoresNothing(w, WriteStep(w, n, a))
  {
    hide ActStep, EarlyResult, ExpectedName, NewStatus, Stopped, InProgress, Lists, FirstOwned, NewJob;
    ActStoresNothing(p, w, n, a);
  }

  lemma ActStoresNothing(p: Params, w: World, n: string, a: Answers)
    ensures StoresNothing(w, ActStep(p, w, n, a))
  {
    hide PreChecksResult, SyncResult, ExpectedName, Stopped, InProgress, IsRunning;
  }

  lemma TheRestStoresNothing(p: Params, w: World, action: Action)
    requires !action.CreateObject? && !action.UpdateObject?
    ensures StoresNothing(w, Step(p, w, action))
  {
    hide LookStep, ActStep, CreateJobStep, WriteStep, CreateStep, UpdateStep, Live, Later, IsSucceeded;
    match action
    case Look(n, a, items) => OperatorStoresNothing(p, w, n, a, items);
    case Act(n, a) => OperatorStoresNothing(p, w, n, a, []);
    case Create(n, a) => OperatorStoresNothing(p, w, n, a, []);
    case Write(n, a) => OperatorStoresNothing(p, w, n, a, []);
    case _ =>
  }

  lemma OperatorKeepsAttainable(p: Params, w: World, n: string, a: Answers, items: seq<Job>)
    requires AttainableOk(w)
    ensures AttainableOk(LookStep(p, w, n, a, items))
    ensures AttainableOk(ActStep(p, w, n, a))
    ensures AttainableOk(CreateJobStep(p, w, n, a))
    ensures AttainableOk(WriteStep(w, n, a))
  {
    hide Attainable, TargetOf, LookStep, ActStep, CreateJobStep, NewStatus;
    LookKeepsAttainable(p, w, n, a, items);
    ActKeepsAttainable(p, w, n, a);
    CreateJobKeepsAttainable(p, w, n, a);
  }

  lemma LookKeepsAttainable(p: Params, w: World, n: string, a: Answers, items: seq<Job>)
    requires AttainableOk(w)
    ensures AttainableOk(LookStep(p, w, n, a, items))
  {
    hide Attainable, TargetOf, EarlyResult, Stopped, Lists, FirstOwned;
    if n in w.flights {
      OnlyAttainableReachJobs(w.flights[n].o.spec, a);
    }
  }

  lemma ActKeepsAttainable(p: Params, w: World, n: string, a: Answers)
    requires AttainableOk(w)
    ensures AttainableOk(ActStep(p, w, n, a))
  {
    hide Attainable, TargetOf, PreChecksResult, SyncResult, ExpectedName, Stopped, InProgress, IsRunning, NewJob;
  }

  lemma CreateJobKeepsAttainable(p: Params, w: World, n: string, a: Answers)
    requires AttainableOk(w)
    ensures AttainableOk(CreateJobStep(p, w, n, a))
  {
    hide Attainable, TargetOf, Stopped, InProgress, NewJob;
  }

  lemma AttainableStep(p: Params, w: World, action: Action)
    requires AttainableOk(w)
    ensures AttainableOk(Step(p, w, action))
  {
    hide Attainable, TargetOf, LookStep, ActStep, CreateJobStep, WriteStep, IsSucceeded, IsFailed, AdmitsCreate,
         AdmitsUpdate;
    match action
    case Look(n, a, items) => OperatorKeepsAttainable(p, w, n, a, items);
    case Act(n, a) => OperatorKeepsAttainable(p, w, n, a, []);
    case Create(n, a) => OperatorKeepsAttainable(p, w, n, a, []);
    case Write(n, a) => OperatorKeepsAttainable(p, w, n, a, []);
    case _ =>
  }

  lemma SpecInvStep(p: Params, w: World, action: Action)
    requires StoreInv(w) && StatusInv(w) && HistoryInv(p, w) && SpecInv(p, w)
    ensures SpecInv(p, Step(p, w, action))
  {
    hide StoreInv, StatusInv, GenerationsOk, AdmissionOk, AttainableOk, LogOk, JobsRecorded, FlightsRecorded,
         ObjectsRecorded, CreateStep, UpdateStep;
    AttainableStep(p, w, action);
    match action
    case CreateObject(n, spec) => CreateKeepsSpecs(p, w, n, spec);
    case UpdateObject(n, spec) => UpdateKeepsSpecs(p, w, n, spec);
    case _ =>
      hide Step;
      TheRestStoresNothing(p, w, action);
      OtherStepsKeepSpecs(p, w, Step(p, w, action));
  }

  lemma {:induction false} SpecsAlwaysOk(p: Params, w: World, actions: seq<Action>)
    requires StoreInv(w) && StatusInv(w) && HistoryInv(p, w) && SpecInv(p, w)
    ensures SpecInv(p, Run(p, w, actions))
    decreases |actions|
  {
    hide StoreInv, StatusInv, HistoryInv, SpecInv, Step;
    if actions != [] {
      StoreInvStep(p, w, actions[0]);
      StatusInvStep(p, w, actions[0]);
      HistoryInvStep(p, w, actions[0]);
      SpecInvStep(p, w, actions[0]);
      SpecsAlwaysOk(p, Step(p, w, actions[0]), actions[1..]);
    }
  }

  lemma SpecsOkFromStart(p: Params, actions: seq<Action>)
    ensures SpecInv(p, Run(p, INIT, actions))
  {
    hide Run;
    SpecsAlwaysOk(p, INIT, actions);
  }

  // ---------- What it gives ----------

  /** A generation stands for one spec, so what Ready says of a generation it says of that spec. */
  lemma GenerationsAreUnambiguous(p: Params, actions: seq<Action>, uid: Uid, generation: nat, spec: Spec, other: Spec)
    requires Stored(uid, generation, spec) in Run(p, INIT, actions).log
    requires Stored(uid, generation, other) in Run(p, INIT, actions).log
    ensures spec == other
  {
    hide Run, AdmissionOk, AttainableOk;
    SpecsOkFromStart(p, actions);
  }

  /** With the webhook, all the specs that a DBUpgrade ever has are for the same database. */
  lemma UpdatesKeepTarget(p: Params, actions: seq<Action>, first: Event, later: Event)
    requires p.webhook
    requires first in Run(p, INIT, actions).log && later in Run(p, INIT, actions).log
    requires first.Stored? && later.Stored? && first.uid == later.uid
    ensures TargetOf(later.spec.database) == TargetOf(first.spec.database)
  {
    hide Run, GenerationsOk, AttainableOk, SoundSpec, TargetOf;
    SpecsOkFromStart(p, actions);
  }

  /** With the webhook, the database that a DBUpgrade migrates is the one that it was created with: every
      Job ever created for it has the target of every spec it ever had. */
  lemma TargetNeverMoves(p: Params, actions: seq<Action>, stored: Event, created: Event)
    requires p.webhook
    requires stored in Run(p, INIT, actions).log && stored.Stored?
    requires created in Run(p, INIT, actions).log && created.JobCreated? && created.o.uid == stored.uid
    ensures TargetOf(created.o.spec.database) == TargetOf(stored.spec.database)
    ensures SoundSpec(p.parse, created.o.spec)
  {
    hide Run, GenerationsOk, AttainableOk, SoundSpec, TargetOf;
    SpecsOkFromStart(p, actions);
    EveryJobWasChecked(p, actions, created);
    assert Stored(created.o.uid, created.o.generation, created.o.spec) in Run(p, INIT, actions).log;
  }

  /** An object for AWS that was admitted with a connection instead of the AWS settings is never migrated,
      whatever updates are admitted later. */
  lemma AdmittedButNeverMigrated(p: Params, actions: seq<Action>, stored: Event, created: Event)
    requires p.webhook
    requires stored in Run(p, INIT, actions).log && stored.Stored?
    requires stored.spec.database.kind.AwsRds? || stored.spec.database.kind.AwsAurora?
    requires stored.spec.database.aws.None?
    requires created in Run(p, INIT, actions).log && created.JobCreated?
    ensures created.o.uid != stored.uid
  {
    hide Run, GenerationsOk, AdmissionOk, SoundSpec;
    SpecsOkFromStart(p, actions);
    assert Attainable(TargetOf(created.o.spec.database));
    if created.o.uid == stored.uid {
      TargetNeverMoves(p, actions, stored, created);
    }
  }

  /** And such an object is admitted. */
  lemma ConnectionInsteadOfAwsIsAdmitted(parse: Semver.Parser, migrations: Migrations, ref: SecretKeyRef)
    requires ref.name != "" && ref.key != ""
    ensures AdmitsCreate(parse, Spec(migrations, Database(AwsRds, Some(Connection(Some(ref))), None), None, None))
    ensures !Attainable(TargetOf(Database(AwsRds, Some(Connection(Some(ref))), None)))
  {
  }
}
