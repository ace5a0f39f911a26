/** Objects whose spec rests settle, whatever the API answers and whatever others do before, between and after
    the steps of their reconciles. */
module Settling {
  import opened Types
  import opened Decision
  import opened Protocol
  import opened StoreSafety
  import opened StatusSafety
  import opened Isolation
  import opened OwnJobs
  import opened Progress
  import opened Conditions
  import History
  import Webhook

  // ---------- Others ----------

  /** A step of anyone else: the users leave the spec of this object alone, though they may update it otherwise,
      the operator works on others, and no failed Job turns complete. */
  predicate Bystander(w: World, action: Action, n: string) {
    match action
    case UpdateObject(m, spec) => m != n || (n in w.objects && spec == w.objects[n].spec)
    case DeleteObject(m) => m != n
    case RunJob(m, status) =>
      m in w.jobs && IsFailed(w.jobs[m]) && !IsSucceeded(w.jobs[m]) ==> !IsSucceeded(w.jobs[m].(status := status))
    case Fetch(m) => m != n
    case Look(m, _, _) => m != n
    case Act(m, _) => m != n
    case Create(m, _) => m != n
    case Write(m, _) => m != n
    case Crash(m) => m != n
    case _ => true
  }

  ghost predicate Bystanders(p: Params, w: World, actions: seq<Action>, n: string)
    decreases |actions|
  {
    actions == [] || (Bystander(w, actions[0], n) && Bystanders(p, Step(p, w, actions[0]), actions[1..], n))
  }

  /** What becomes of the Job of an object to which nobody attends. */
  ghost predicate JobGrows(job: Option<Job>, later: Option<Job>) {
    match job
    case None => later.None?
    case Some(j) =>
      && later.Some? && Later(j, later.value)
      && (IsFailed(j) && !IsSucceeded(j) ==> !IsSucceeded(later.value))
  }

  lemma GrowsFurther(a: Option<Job>, b: Option<Job>, c: Option<Job>)
    requires JobGrows(a, b) && JobGrows(b, c)
    ensures JobGrows(a, c)
  {
    hide IsSucceeded, IsFailed;
  }

  lemma GrownRank(p: Params, o: DBUpgrade, job: Option<Job>, later: Option<Job>)
    requires JobGrows(job, later)
    ensures RankOf(p, o, later) <= RankOf(p, o, job)
  {
    hide IsSucceeded, IsFailed, ExpectedName;
  }

  lemma RankIgnoresVersion(p: Params, o: DBUpgrade, other: DBUpgrade, job: Option<Job>)
    requires SameButVersion(o, other)
    ensures RankOf(p, other, job) == RankOf(p, o, job)
  {
    hide IsSucceeded, IsFailed, JobName;
  }

  lemma SameJobGrows(job: Option<Job>)
    ensures JobGrows(job, job)
  {
    hide IsSucceeded, IsFailed;
  }

  lemma JobsOfOwn(w: World, v: World, uid: Uid)
    requires JobsOk(w) && OneJobEach(w) && uid.UpgradeUid? && JobsOf(v, uid) == JobsOf(w, uid)
    ensures OwnJob(v.jobs, uid) == OwnJob(w.jobs, uid)
  {
    hide NamedFor;
    assert forall k | k in v.jobs && OwnedBy(v.jobs[k], uid) :: k in JobsOf(v, uid);
    if m :| m in w.jobs && OwnedBy(w.jobs[m], uid) {
      assert m in JobsOf(w, uid);
      OwnJobIs(w.jobs, uid, m);
      OwnJobIs(v.jobs, uid, m);
    }
  }

  /** The same but for the resource version. */
  predicate SameButVersion(o: DBUpgrade, other: DBUpgrade) {
    other == o.(resourceVersion := other.resourceVersion)
  }

  /** What a step leaves as it was for an object: itself but for its version, its reconcile and its Jobs. */
  ghost predicate Untouched(w: World, v: World, n: string)
    requires n in w.objects
  {
    && n in v.objects && SameButVersion(w.objects[n], v.objects[n])
    && (n in v.flights <==> n in w.flights)
    && (n in w.flights ==> v.flights[n] == w.flights[n])
    && JobsOf(v, w.objects[n].uid) == JobsOf(w, w.objects[n].uid)
  }

  lemma ClusterLeaves(p: Params, w: World, action: Action, n: string)
    requires StoreInv(w) && n in w.objects
    requires action.CollectJob? || action.ForeignCreate? || action.ForeignDelete?
    ensures Untouched(w, Step(p, w, action), n)
  {
    hide StoreInv, Live, CreateStep, UpdateStep, RunJobStep, FetchStep, LookStep, ActStep, CreateJobStep, WriteStep;
    ObjectIsLive(w, n);
  }

  lemma ObjectIsLive(w: World, n: string)
    requires StoreInv(w) && n in w.objects
    ensures Live(w, w.objects[n].uid) && w.objects[n].uid.UpgradeUid?
    ensures w.objects[n].uid in w.keys && w.keys[w.objects[n].uid] == n
  {
    hide JobsOk, OneJobEach, FlightsOk;
  }

  lemma UsersLeave(p: Params, w: World, action: Action, n: string)
    requires n in w.objects && Bystander(w, action, n)
    requires action.CreateObject? || action.UpdateObject? || action.DeleteObject? || action.Tick? || action.Fetch? ||
             action.Crash?
    ensures Untouched(w, Step(p, w, action), n)
  {
    hide Webhook.AdmitsCreate, Webhook.AdmitsUpdate, RunJobStep, CollectStep, ForeignCreateStep, ForeignDeleteStep,
         LookStep, ActStep, CreateJobStep, WriteStep;
    assert Step(p, w, action).jobs == w.jobs;
  }

  lemma OperatorLeaves(p: Params, w: World, action: Action, n: string)
    requires StoreInv(w) && n in w.objects
    requires Bystander(w, action, n) && (action.Look? || action.Act? || action.Create? || action.Write?)
    ensures Untouched(w, Step(p, w, action), n)
  {
    hide StoreInv, Step, JobsOf;
    ObjectIsLive(w, n);
    OtherNameOtherUid(w, action.name, w.objects[n].uid);
    StepIsIsolated(p, w, action, action.name, w.objects[n].uid);
    FlightStays(p, w, action, n);
  }

  lemma FlightStays(p: Params, w: World, action: Action, n: string)
    requires (action.Look? || action.Act? || action.Create? || action.Write?) && action.name != n
    ensures
      var v := Step(p, w, action);
      (n in v.flights <==> n in w.flights) && (n in w.flights ==> v.flights[n] == w.flights[n])
  {
    hide LookStep, ActStep, CreateJobStep, WriteStep, CreateStep, UpdateStep, CollectStep, ForeignCreateStep,
         ForeignDeleteStep, RunJobStep;
    match action
    case Look(m, a, items) => OneFlight(p, w, m, a, items, n);
    case Act(m, a) => OneFlight(p, w, m, a, [], n);
    case Create(m, a) => OneFlight(p, w, m, a, [], n);
    case Write(m, a) => OneFlight(p, w, m, a, [], n);
  }

  ghost predicate SameFlight(w: World, v: World, n: string) {
    (n in v.flights <==> n in w.flights) && (n in w.flights ==> v.flights[n] == w.flights[n])
  }

  lemma OneFlight(p: Params, w: World, m: string, a: Answers, items: seq<Job>, n: string)
    requires m != n
    ensures SameFlight(w, LookStep(p, w, m, a, items), n)
    ensures SameFlight(w, ActStep(p, w, m, a), n)
    ensures SameFlight(w, CreateJobStep(p, w, m, a), n)
    ensures SameFlight(w, WriteStep(w, m, a), n)
  {
    hide Lists, FirstOwned, EarlyResult, PreChecksResult, SyncResult, ExpectedName, IsRunning, Stopped, InProgress,
         NewStatus;
  }

  /** Running a Job. */
  lemma RunJobGrows(p: Params, w: World, m: string, status: JobStatus, n: string)
    requires StoreInv(w) && n in w.objects
    requires Bystander(w, RunJob(m, status), n)
    ensures
      var v := RunJobStep(w, m, status);
      v.objects == w.objects && v.flights == w.flights &&
      JobGrows(OwnJob(w.jobs, w.objects[n].uid), OwnJob(v.jobs, w.objects[n].uid))
  {
    hide ObjectsOk, FlightsOk, IsSucceeded, IsFailed, NamedFor, OwnJob;
    var v := RunJobStep(w, m, status);
    var uid := w.objects[n].uid;
    ObjectIsLive(w, n);
    if v.jobs == w.jobs {
      SameJobGrows(OwnJob(w.jobs, uid));
    } else if OwnedBy(w.jobs[m], uid) {
      OwnJobIs(w.jobs, uid, m);
      OwnJobIs(v.jobs, uid, m);
    } else {
      assert JobsOf(v, uid) == JobsOf(w, uid);
      JobsOfOwn(w, v, uid);
      SameJobGrows(OwnJob(w.jobs, uid));
    }
  }

  /** What bystanders do to an object, one of them or many. */
  ghost predicate LeftAlone(w: World, v: World, n: string) {
    && n in w.objects && n in v.objects && SameButVersion(w.objects[n], v.objects[n])
    && SameFlight(w, v, n)
    && JobGrows(OwnJob(w.jobs, w.objects[n].uid), OwnJob(v.jobs, w.objects[n].uid))
  }

  lemma BystanderLeavesAlone(p: Params, w: World, action: Action, n: string)
    requires StoreInv(w) && n in w.objects && Bystander(w, action, n)
    ensures LeftAlone(w, Step(p, w, action), n)
  {
    hide ObjectsOk, FlightsOk, JobGrows, OwnJob, JobsOf, Bystander;
    if action.RunJob? {
      hide JobsOk, OneJobEach;
      RunJobGrows(p, w, action.name, action.status, n);
    } else {
      hide Step;
      ObjectIsLive(w, n);
      if action.Look? || action.Act? || action.Create? || action.Write? {
        OperatorLeaves(p, w, action, n);
      } else if action.CollectJob? || action.ForeignCreate? || action.ForeignDelete? {
        ClusterLeaves(p, w, action, n);
      } else {
        UsersLeave(p, w, action, n);
      }
      JobsOfOwn(w, Step(p, w, action), w.objects[n].uid);
      SameJobGrows(OwnJob(w.jobs, w.objects[n].uid));
    }
  }

  lemma {:induction false} BystandersLeaveAlone(p: Params, w: World, actions: seq<Action>, n: string)
    requires StoreInv(w) && StatusInv(w) && n in w.objects && Bystanders(p, w, actions, n)
    ensures StoreInv(Run(p, w, actions)) && StatusInv(Run(p, w, actions))
    ensures LeftAlone(w, Run(p, w, actions), n)
    decreases |actions|
  {
    hide StoreInv, StatusInv, JobGrows, OwnJob, Step, Bystander;
    if actions == [] {
      SameJobGrows(OwnJob(w.jobs, w.objects[n].uid));
    } else {
      var v := Step(p, w, actions[0]);
      StoreInvStep(p, w, actions[0]);
      StatusInvStep(p, w, actions[0]);
      BystanderLeavesAlone(p, w, actions[0], n);
      BystandersLeaveAlone(p, v, actions[1..], n);
      var uid := w.objects[n].uid;
      GrowsFurther(OwnJob(w.jobs, uid), OwnJob(v.jobs, uid), OwnJob(Run(p, w, actions).jobs, uid));
    }
  }

  // ---------- Own steps ----------

  predicate SameObject(o: DBUpgrade, other: DBUpgrade) {
    o.name == other.name && o.uid == other.uid && o.spec == other.spec && o.generation == other.generation
  }

  /** A reconcile of the object, if one is under way, has read the spec that it has. */
  ghost predicate Current(w: World, n: string) {
    n in w.objects && (n in w.flights ==> SameObject(w.flights[n].o, w.objects[n]))
  }

  function AtLeastOne(rank: int): nat {
    if rank < 1 then 1 else rank
  }

  /** What a step of the object's own reconcile, or of a bystander, keeps. */
  ghost predicate StepsOn(p: Params, w: World, v: World, n: string) {
    && n in w.objects && Current(v, n) && SameObject(v.objects[n], w.objects[n])
    && Rank(p, v, n) <= AtLeastOne(Rank(p, w, n))
  }

  /** The reconcile deletes: if the Job is the object's, it is stale. */
  lemma DeletingStepsOn(p: Params, w: World, n: string, a: Answers)
    requires StoreInv(w) && Current(w, n)
    requires n in w.flights && w.flights[n].Found? && w.flights[n].job.Some?
    requires w.flights[n].job.value.name != ExpectedName(p, w.flights[n].o)
    ensures
      var o := w.objects[n];
      var v := DeleteJobStep(w, n, w.flights[n].o, w.flights[n].job.value, a);
      && Current(v, n) && v.objects == w.objects
      && RankOf(p, o, OwnJob(v.jobs, o.uid)) <= RankOf(p, o, OwnJob(w.jobs, o.uid))
  {
    hide ObjectsOk, FlightsOk, NamedFor, JobName, Settled, IsFinished, Stopped, OwnJob;
    var o, name := w.objects[n], w.flights[n].job.value.name;
    var v := DeleteJobStep(w, n, w.flights[n].o, w.flights[n].job.value, a);
    ObjectIsLive(w, n);
    if v.jobs != w.jobs {
      if name in w.jobs && OwnedBy(w.jobs[name], o.uid) {
        OwnJobIs(w.jobs, o.uid, name);
        NoneIsOwn(v.jobs, o.uid);
      } else {
        assert JobsOf(v, o.uid) == JobsOf(w, o.uid);
        JobsOfOwn(w, v, o.uid);
      }
    }
  }

  lemma CreatingStepsOn(p: Params, w: World, n: string, a: Answers)
    requires StoreInv(w) && Current(w, n)
    ensures
      var o := w.objects[n];
      var v := CreateJobStep(p, w, n, a);
      && Current(v, n) && v.objects == w.objects
      && RankOf(p, o, OwnJob(v.jobs, o.uid)) <= RankOf(p, o, OwnJob(w.jobs, o.uid))
  {
    hide StoreInv, JobName, Settled, IsFinished, Stopped, InProgress, OwnJob;
    var o := w.objects[n];
    var v := CreateJobStep(p, w, n, a);
    if v.jobs != w.jobs {
      ClearedOwnsNone(w, n);
      OwnNothing(w, o.uid);
      OwnJobIs(v.jobs, o.uid, NewJob(p, o).name);
    }
  }

  lemma OwnNothing(w: World, uid: Uid)
    requires OwnsNone(w, uid)
    ensures OwnJob(w.jobs, uid).None?
    ensures forall m | m in w.jobs :: !OwnedBy(w.jobs[m], uid)
  {
  }

  lemma WritingStepsOn(p: Params, w: World, n: string, a: Answers)
    requires Current(w, n)
    ensures
      var v := WriteStep(w, n, a);
      && Current(v, n) && v.jobs == w.jobs && SameObject(v.objects[n], w.objects[n])
      && Rank(p, v, n) <= AtLeastOne(Rank(p, w, n))
  {
    hide NewStatus, OwnJob, Settled, IsFinished, JobName;
  }

  lemma OwnStepsOn(p: Params, w: World, action: Action, n: string)
    requires StoreInv(w) && Current(w, n) && OperatorStep(action, n)
    ensures StepsOn(p, w, Step(p, w, action), n)
  {
    hide StoreInv, RankOf, OwnJob, LookStep, ActStep, CreateJobStep, WriteStep, CreateStep, UpdateStep, CollectStep,
         ForeignCreateStep, ForeignDeleteStep, RunJobStep;
    match action
    case Act(_, a) => ActingStepsOn(p, w, n, a);
    case Create(_, a) => CreatingStepsOn(p, w, n, a);
    case Write(_, a) => WritingStepsOn(p, w, n, a);
    case Look(_, a, items) => LookingStepsOn(p, w, n, a, items);
    case _ =>
  }

  lemma LookingStepsOn(p: Params, w: World, n: string, a: Answers, items: seq<Job>)
    requires Current(w, n)
    ensures
      var v := LookStep(p, w, n, a, items);
      Current(v, n) && v.objects == w.objects && v.jobs == w.jobs
  {
    hide EarlyResult, Stopped, Lists, FirstOwned;
  }

  lemma ActingStepsOn(p: Params, w: World, n: string, a: Answers)
    requires StoreInv(w) && Current(w, n)
    ensures
      var o := w.objects[n];
      var v := ActStep(p, w, n, a);
      && Current(v, n) && v.objects == w.objects
      && RankOf(p, o, OwnJob(v.jobs, o.uid)) <= RankOf(p, o, OwnJob(w.jobs, o.uid))
  {
    hide StoreInv, RankOf, OwnJob, PreChecksResult, SyncResult, ExpectedName, IsRunning, InProgress, DeleteJobStep;
    if n in w.flights && w.flights[n].Found? && w.flights[n].job.Some? &&
       w.flights[n].job.value.name != ExpectedName(p, w.flights[n].o) {
      DeletingStepsOn(p, w, n, a);
    }
  }

  // ---------- While the spec rests ----------

  /** Everyone else stands by, and the operator reconciles the object in whatever way, crashes included. */
  ghost predicate Resting(p: Params, w: World, actions: seq<Action>, n: string)
    decreases |actions|
  {
    actions == [] ||
    (&& (Bystander(w, actions[0], n) || OperatorStep(actions[0], n))
     && Resting(p, Step(p, w, actions[0]), actions[1..], n))
  }

  /** The object is settled at some point. */
  ghost predicate Settles(p: Params, w: World, actions: seq<Action>, n: string)
    decreases |actions|
  {
    IsSettled(p, w, n) || (actions != [] && Settles(p, Step(p, w, actions[0]), actions[1..], n))
  }

  lemma RestingStep(p: Params, w: World, action: Action, n: string)
    requires StoreInv(w) && Current(w, n)
    requires Bystander(w, action, n) || OperatorStep(action, n)
    ensures StepsOn(p, w, Step(p, w, action), n)
  {
    hide StoreInv, RankOf, OwnJob, Step, Bystander, OperatorStep, JobGrows;
    if OperatorStep(action, n) {
      OwnStepsOn(p, w, action, n);
    } else {
      var v := Step(p, w, action);
      BystanderLeavesAlone(p, w, action, n);
      GrownRank(p, w.objects[n], OwnJob(w.jobs, w.objects[n].uid), OwnJob(v.jobs, w.objects[n].uid));
      RankIgnoresVersion(p, w.objects[n], v.objects[n], OwnJob(v.jobs, w.objects[n].uid));
    }
  }

  /** While the spec rests, the rank never rises until the object is settled. */
  lemma {:induction false} RestingNeverRises(p: Params, w: World, actions: seq<Action>, n: string)
    requires StoreInv(w) && StatusInv(w) && Current(w, n) && Resting(p, w, actions, n)
    ensures
      var v := Run(p, w, actions);
      && StoreInv(v) && StatusInv(v) && StepsOn(p, w, v, n)
      && (Settles(p, w, actions, n) || Rank(p, v, n) <= Rank(p, w, n))
    decreases |actions|
  {
    hide StoreInv, StatusInv, Rank, IsSettled, Step, Bystander, OperatorStep;
    SettledIsRankZero(p, w, n);
    if actions != [] {
      StoreInvStep(p, w, actions[0]);
      StatusInvStep(p, w, actions[0]);
      RestingStep(p, w, actions[0], n);
      RestingNeverRises(p, Step(p, w, actions[0]), actions[1..], n);
    }
  }

  lemma {:induction false} RestingConcat(p: Params, w: World, first: seq<Action>, second: seq<Action>, n: string)
    ensures Resting(p, w, first + second, n) <==> Resting(p, w, first, n) && Resting(p, Run(p, w, first), second, n)
    decreases |first|
  {
    hide Step, Bystander, OperatorStep;
    if first == [] {
      assert first + second == second;
    } else {
      assert (first + second)[1..] == first[1..] + second;
      RestingConcat(p, Step(p, w, first[0]), first[1..], second, n);
    }
  }

  lemma {:induction false} SettlesConcat(p: Params, w: World, first: seq<Action>, second: seq<Action>, n: string)
    ensures Settles(p, w, first + second, n) <==> Settles(p, w, first, n) || Settles(p, Run(p, w, first), second, n)
    decreases |first|
  {
    hide Step, IsSettled;
    if first == [] {
      assert first + second == second;
    } else {
      assert (first + second)[1..] == first[1..] + second;
      SettlesConcat(p, Step(p, w, first[0]), first[1..], second, n);
    }
  }

  lemma {:induction false} BystandersRest(p: Params, w: World, actions: seq<Action>, n: string)
    requires Bystanders(p, w, actions, n)
    ensures Resting(p, w, actions, n)
    decreases |actions|
  {
    hide Step, Bystander;
    if actions != [] {
      BystandersRest(p, Step(p, w, actions[0]), actions[1..], n);
    }
  }

  /** One step and what others do after it. */
  lemma StepThenOthers(p: Params, w: World, action: Action, others: seq<Action>, n: string)
    requires OperatorStep(action, n) && Bystanders(p, Step(p, w, action), others, n)
    ensures Resting(p, w, [action] + others, n)
    ensures Run(p, w, [action] + others) == Run(p, Step(p, w, action), others)
  {
    hide Step, OperatorStep, Bystanders;
    BystandersRest(p, Step(p, w, action), others, n);
    assert ([action] + others)[1..] == others;
  }

  // ---------- Reconciles with interference ----------

  /** What happens before a reconcile, others and reconciles of the object that do not get to their end; then the
      reconcile, with what the API answers at each step and what others do after it. */
  datatype Round = Round(
    before: seq<Action>,
    fetched: seq<Action>,
    look: Answers, items: seq<Job>, looked: seq<Action>,
    act: Answers, acted: seq<Action>,
    create: Answers, created: seq<Action>,
    write: Answers)

  ghost function AtFetch(p: Params, w: World, n: string, r: Round): World {
    Run(p, w, r.before)
  }

  ghost function AtLook(p: Params, w: World, n: string, r: Round): World {
    Run(p, Step(p, AtFetch(p, w, n, r), Fetch(n)), r.fetched)
  }

  ghost function AtAct(p: Params, w: World, n: string, r: Round): World {
    Run(p, Step(p, AtLook(p, w, n, r), Look(n, r.look, r.items)), r.looked)
  }

  ghost function AtCreate(p: Params, w: World, n: string, r: Round): World {
    Run(p, Step(p, AtAct(p, w, n, r), Act(n, r.act)), r.acted)
  }

  ghost function AtWrite(p: Params, w: World, n: string, r: Round): World {
    Run(p, Step(p, AtCreate(p, w, n, r), Create(n, r.create)), r.created)
  }

  ghost function AfterRound(p: Params, w: World, n: string, r: Round): World {
    Step(p, AtWrite(p, w, n, r), Write(n, r.write))
  }

  function ActionsToAct(n: string, r: Round): seq<Action> {
    r.before + ([Fetch(n)] + r.fetched) + ([Look(n, r.look, r.items)] + r.looked)
  }

  function ActionsOf(n: string, r: Round): seq<Action> {
    ActionsToAct(n, r) + ([Act(n, r.act)] + r.acted)
    + ([Create(n, r.create)] + r.created) + [Write(n, r.write)]
  }

  /** Others stand by throughout, and the Jobs listed are those there are at the time. */
  ghost predicate Undisturbed(p: Params, w: World, n: string, r: Round) {
    && Resting(p, w, r.before, n) && n !in AtFetch(p, w, n, r).flights
    && Bystanders(p, Step(p, AtFetch(p, w, n, r), Fetch(n)), r.fetched, n)
    && Lists(r.items, AtLook(p, w, n, r).jobs)
    && Bystanders(p, Step(p, AtLook(p, w, n, r), Look(n, r.look, r.items)), r.looked, n)
    && Bystanders(p, Step(p, AtAct(p, w, n, r), Act(n, r.act)), r.acted, n)
    && Bystanders(p, Step(p, AtCreate(p, w, n, r), Create(n, r.create)), r.created, n)
  }

  /** Nothing holds the reconcile of the object as it was read up: neither the API, nor a user, nor the Job as it
      was listed, nor the clock, nor a check, nor a foreign Job with the name that is needed. */
  ghost predicate Unhindered(p: Params, w: World, n: string, r: Round) {
    && n in AtFetch(p, w, n, r).objects
    && var o := AtFetch(p, w, n, r).objects[n];
       && ReachesJobs(o.spec, r.look)
       && match OwnJob(AtLook(p, w, n, r).jobs, o.uid)
          case None =>
            && PreGatesOpen(p, o.spec, r.act)
            && r.create.created.TakesEffect() && ExpectedName(p, o) !in AtCreate(p, w, n, r).jobs
          case Some(j) =>
            var now := AtAct(p, w, n, r).now;
            if j.name != ExpectedName(p, o) then !IsRunning(j) && r.act.deleted.TakesEffect()
            else
              && Lands(AtWrite(p, w, n, r), n, r.write)
              && if IsSucceeded(j) then PostGatesOpen(p, o.spec, CompletedAt(o, j, now), now, r.act) else IsFailed(j)
  }

  /** The parts of a round, one after the other. */
  lemma RoundIsRun(p: Params, w: World, n: string, r: Round)
    requires Undisturbed(p, w, n, r)
    ensures Run(p, w, ActionsOf(n, r)) == AfterRound(p, w, n, r)
    ensures Resting(p, w, ActionsOf(n, r), n)
  {
    hide Step, Lists, Bystanders, Run, Resting;
    var a0 := r.before;
    var a1 := a0 + ([Fetch(n)] + r.fetched);
    var a2 := a1 + ([Look(n, r.look, r.items)] + r.looked);
    var a3 := a2 + ([Act(n, r.act)] + r.acted);
    var a4 := a3 + ([Create(n, r.create)] + r.created);
    GoesOn(p, w, a0, Fetch(n), r.fetched, n);
    GoesOn(p, w, a1, Look(n, r.look, r.items), r.looked, n);
    GoesOn(p, w, a2, Act(n, r.act), r.acted, n);
    GoesOn(p, w, a3, Create(n, r.create), r.created, n);
    var end: seq<Action> := [Write(n, r.write)];
    assert [Write(n, r.write)] + [] == end;
    assert a4 + end == ActionsOf(n, r);
    NothingElse(p, AfterRound(p, w, n, r), n);
    GoesOn(p, w, a4, Write(n, r.write), [], n);
  }

  lemma NothingElse(p: Params, w: World, n: string)
    ensures Bystanders(p, w, [], n) && Run(p, w, []) == w
  {
  }

  lemma GoesOn(p: Params, w: World, before: seq<Action>, action: Action, others: seq<Action>, n: string)
    requires Resting(p, w, before, n) && OperatorStep(action, n)
    requires Bystanders(p, Step(p, Run(p, w, before), action), others, n)
    ensures Resting(p, w, before + ([action] + others), n)
    ensures Run(p, w, before + ([action] + others)) == Run(p, Step(p, Run(p, w, before), action), others)
  {
    hide Step, OperatorStep, Bystanders, Run, Resting;
    StepThenOthers(p, Run(p, w, before), action, others, n);
    RestingConcat(p, w, before, [action] + others, n);
    RunConcat(p, w, before, [action] + others);
  }

  // ---------- What a round knows at each step ----------

  ghost predicate Sound(w: World, n: string) {
    StoreInv(w) && StatusInv(w) && Current(w, n)
  }

  /** One step of the reconcile and what others do after it. */
  lemma Moves(p: Params, w: World, action: Action, others: seq<Action>, n: string)
    requires Sound(w, n) && OperatorStep(action, n) && Bystanders(p, Step(p, w, action), others, n)
    ensures Sound(Step(p, w, action), n) && SameObject(Step(p, w, action).objects[n], w.objects[n])
    ensures Sound(Run(p, Step(p, w, action), others), n)
    ensures LeftAlone(Step(p, w, action), Run(p, Step(p, w, action), others), n)
  {
    hide Step, Run, StoreInv, StatusInv, OperatorStep, Rank, Bystanders, OwnJob, JobGrows;
    StoreInvStep(p, w, action);
    StatusInvStep(p, w, action);
    OwnStepsOn(p, w, action, n);
    BystandersLeaveAlone(p, Step(p, w, action), others, n);
  }

  /** When it looks at the Jobs, the reconcile holds the object as it has read it. */
  lemma KnowsAtLook(p: Params, w: World, n: string, r: Round)
    requires Sound(w, n) && Undisturbed(p, w, n, r)
    ensures
      var t, u := AtFetch(p, w, n, r), AtLook(p, w, n, r);
      && Sound(u, n) && n in t.objects && n in u.flights && u.flights[n] == Fetched(t.objects[n])
      && SameObject(u.objects[n], t.objects[n]) && SameObject(t.objects[n], w.objects[n])
  {
    hide StoreInv, StatusInv, Run, Rank, Lists, Resting, Bystanders, OwnJob, JobGrows, Settles;
    RestingNeverRises(p, w, r.before, n);
    var u := AtFetch(p, w, n, r);
    FetchReads(p, u, n);
    hide Step;
    Moves(p, u, Fetch(n), r.fetched, n);
  }

  lemma FetchReads(p: Params, w: World, n: string)
    requires n in w.objects && n !in w.flights
    ensures Step(p, w, Fetch(n)) == w.(flights := w.flights[n := Fetched(w.objects[n])])
  {
  }

  /** When it acts, it also knows the Job that the object had when the Jobs were listed. */
  lemma KnowsAtAct(p: Params, w: World, n: string, r: Round)
    requires Sound(w, n) && Undisturbed(p, w, n, r)
    requires n in AtFetch(p, w, n, r).objects && ReachesJobs(AtFetch(p, w, n, r).objects[n].spec, r.look)
    ensures
      var u, v := AtLook(p, w, n, r), AtAct(p, w, n, r);
      var o := AtFetch(p, w, n, r).objects[n];
      && Sound(v, n) && n in v.objects && n in v.flights
      && SameObject(v.objects[n], o) && SameObject(o, w.objects[n])
      && v.flights[n] == Found(o, OwnJob(u.jobs, o.uid))
      && JobGrows(OwnJob(u.jobs, o.uid), OwnJob(v.jobs, o.uid))
  {
    hide StoreInv, StatusInv, Run, Rank, Lists, Resting, Bystanders, OwnJob, JobGrows, ReachesJobs;
    KnowsAtLook(p, w, n, r);
    var u := AtLook(p, w, n, r);
    LookReads(p, u, n, r.look, r.items);
    hide Step;
    Moves(p, u, Look(n, r.look, r.items), r.looked, n);
  }

  lemma LookReads(p: Params, w: World, n: string, a: Answers, items: seq<Job>)
    requires Sound(w, n) && n in w.flights && w.flights[n].Fetched?
    requires Lists(items, w.jobs) && ReachesJobs(w.flights[n].o.spec, a)
    ensures
      var o := w.flights[n].o;
      Step(p, w, Look(n, a, items)) == w.(flights := w.flights[n := Found(o, OwnJob(w.jobs, o.uid))])
  {
    hide StatusInv, Lists, FirstOwned, OwnJob, EarlyResult, CreateStep, UpdateStep, CollectStep, ForeignCreateStep,
         ForeignDeleteStep, RunJobStep, FetchStep, ActStep, CreateJobStep, WriteStep, ObjectsOk, FlightsOk, JobsOk,
         OneJobEach;
    ObjectIsLive(w, n);
    FoundIsOwn(w, items, w.flights[n].o.uid);
  }

  // ---------- The decisive steps ----------

  /** A stale Job that was not active when it was listed is deleted. */
  lemma DeletionFalls(p: Params, w: World, n: string, j: Job, a: Answers)
    requires Sound(w, n) && n in w.flights && w.flights[n] == Found(w.flights[n].o, Some(j))
    requires j.name != ExpectedName(p, w.flights[n].o) && !IsRunning(j) && a.deleted.TakesEffect()
    requires JobGrows(Some(j), OwnJob(w.jobs, w.objects[n].uid))
    ensures Rank(p, w, n) == 4
    ensures
      var v := Step(p, w, Act(n, a));
      n in v.objects && Rank(p, v, n) == 3
  {
    hide StatusInv, ObjectsOk, FlightsOk, NamedFor, JobName, IsSucceeded, IsFailed, Settled, Stopped,
         SyncResult, PreChecksResult, OwnJob, CreateStep, UpdateStep, CollectStep, ForeignCreateStep,
         ForeignDeleteStep, RunJobStep, FetchStep, LookStep, CreateJobStep, WriteStep;
    var o := w.objects[n];
    var v := Step(p, w, Act(n, a));
    assert v.objects == w.objects && v.jobs == w.jobs - {j.name};
    ObjectIsLive(w, n);
    OwnJobIsThere(w, o.uid);
    NoneIsOwn(v.jobs, o.uid);
  }

  lemma OwnJobIsThere(w: World, uid: Uid)
    requires JobsOk(w) && OneJobEach(w) && uid.UpgradeUid? && OwnJob(w.jobs, uid).Some?
    ensures
      var j := OwnJob(w.jobs, uid).value;
      && j.name in w.jobs && w.jobs[j.name] == j
      && forall m | m in w.jobs && OwnedBy(w.jobs[m], uid) :: m == j.name
  {
    hide NamedFor;
  }

  /** With the pre-checks passed and the name free, a Job is created. */
  lemma CreationFalls(p: Params, w: World, n: string, a: Answers)
    requires Sound(w, n) && n in w.flights && w.flights[n].Cleared?
    requires a.created.TakesEffect() && ExpectedName(p, w.flights[n].o) !in w.jobs
    ensures Rank(p, w, n) == 3
    ensures
      var v := Step(p, w, Create(n, a));
      n in v.objects && Rank(p, v, n) == 2
  {
    hide StatusInv, StoreInv, JobName, Settled, InProgress, OwnJob, CreateStep, UpdateStep, CollectStep,
         ForeignCreateStep, ForeignDeleteStep, RunJobStep, FetchStep, LookStep, ActStep, WriteStep, IsFinished;
    var o := w.objects[n];
    var v := Step(p, w, Create(n, a));
    ClearedOwnsNone(w, n);
    OwnNothing(w, o.uid);
    OwnJobIs(v.jobs, o.uid, NewJob(p, o).name);
    NewJobIsUnfinished(p, o);
  }

  /** How the Job ended is written. */
  lemma WritingSettles(p: Params, w: World, n: string, a: Answers)
    requires Sound(w, n) && Lands(w, n, a)
    requires
      var Done(o, r) := w.flights[n];
      var job := OwnJob(w.jobs, o.uid);
      && job.Some? && job.value.name == ExpectedName(p, o)
      && if IsSucceeded(job.value) then r.ready else IsFailed(job.value) && r.readyReason == JobFailed
    ensures IsSettled(p, Step(p, w, Write(n, a)), n)
  {
    hide StoreInv, NewStatus, JobName, IsSucceeded, IsFailed, OwnJob, IsTrue, SaysJobFailed, CreateStep, UpdateStep,
         CollectStep, ForeignCreateStep, ForeignDeleteStep, RunJobStep, FetchStep, LookStep, ActStep, CreateJobStep,
         StatusOk;
    var Done(o, r) := w.flights[n];
    LandsAsRead(w, n, a);
    assert StatusOk(o);
    WrittenSays(o, r, w.now);
  }

  lemma LandsAsRead(w: World, n: string, a: Answers)
    requires StoreInv(w) && Lands(w, n, a)
    ensures w.objects[n] == w.flights[n].o
  {
    hide ObjectsOk, JobsOk, OneJobEach, OwnsNone, StillOwn;
    assert FlightOk(w, n, w.flights[n]);
  }

  // ---------- What a round does ----------

  /** What is known of a run of actions that lower the rank by so much. */
  ghost predicate Lowers(p: Params, w: World, actions: seq<Action>, n: string, steps: nat) {
    var v := Run(p, w, actions);
    && n in w.objects && Sound(v, n) && SameObject(v.objects[n], w.objects[n])
    && (Settles(p, w, actions, n) || Rank(p, v, n) + steps <= Rank(p, w, n))
    && Rank(p, v, n) <= AtLeastOne(Rank(p, w, n) - steps)
  }

  lemma NeverRises(p: Params, w: World, actions: seq<Action>, n: string)
    requires Sound(w, n) && Resting(p, w, actions, n)
    ensures Lowers(p, w, actions, n, 0)
  {
    hide StoreInv, StatusInv, Rank, Run, Resting, Settles;
    RestingNeverRises(p, w, actions, n);
  }

  /** One step that lowers the rank is enough. */
  lemma Decisive(p: Params, w: World, before: seq<Action>, d: Action, after: seq<Action>, n: string)
    requires Sound(w, n) && Resting(p, w, before + ([d] + after), n)
    requires
      var u := Run(p, w, before);
      && n in u.objects && n in Step(p, u, d).objects
      && Rank(p, Step(p, u, d), n) < Rank(p, u, n)
    ensures Lowers(p, w, before + ([d] + after), n, 1)
  {
    hide StoreInv, StatusInv, Rank, Run, Resting, Settles, Step, SameObject;
    var u := Run(p, w, before);
    RestingConcat(p, w, before, [d] + after, n);
    SettlesConcat(p, w, before, [d] + after, n);
    RunConcat(p, w, before, [d] + after);
    NeverRises(p, w, before, n);
    FirstOfMany(p, u, d, after, n);
    NeverRises(p, u, [d] + after, n);
    NeverRises(p, Step(p, u, d), after, n);
    SameObjects(w.objects[n], u.objects[n], Run(p, u, [d] + after).objects[n]);
  }

  lemma SameObjects(a: DBUpgrade, b: DBUpgrade, c: DBUpgrade)
    requires SameObject(b, a) && SameObject(c, b)
    ensures SameObject(c, a)
  {
  }

  lemma FirstOfMany(p: Params, w: World, d: Action, after: seq<Action>, n: string)
    requires Sound(w, n) && Resting(p, w, [d] + after, n)
    ensures Sound(Step(p, w, d), n) && Resting(p, Step(p, w, d), after, n)
    ensures Run(p, w, [d] + after) == Run(p, Step(p, w, d), after)
    ensures Settles(p, Step(p, w, d), after, n) ==> Settles(p, w, [d] + after, n)
  {
    hide StoreInv, StatusInv, Rank, Step, Bystander, OperatorStep, IsSettled;
    assert ([d] + after)[1..] == after;
    StoreInvStep(p, w, d);
    StatusInvStep(p, w, d);
    RestingStep(p, w, d, n);
  }

  lemma SettledAtEnd(p: Params, w: World, actions: seq<Action>, n: string)
    requires Sound(w, n) && Resting(p, w, actions, n) && IsSettled(p, Run(p, w, actions), n)
    ensures Lowers(p, w, actions, n, 1)
  {
    hide StoreInv, StatusInv, Rank, Run, Resting, IsSettled;
    NeverRises(p, w, actions, n);
    SettlesConcat(p, w, actions, [], n);
    assert actions + [] == actions;
    SettledIsRankZero(p, Run(p, w, actions), n);
  }

  /** The round, with its Job stale, missing or finished when the Jobs were listed. */
  lemma StaleRound(p: Params, w: World, n: string, r: Round, j: Job)
    requires Sound(w, n) && Undisturbed(p, w, n, r) && Unhindered(p, w, n, r)
    requires
      var o := AtFetch(p, w, n, r).objects[n];
      OwnJob(AtLook(p, w, n, r).jobs, o.uid) == Some(j) && j.name != ExpectedName(p, o)
    ensures Lowers(p, w, ActionsOf(n, r), n, 1)
  {
    hide Sound, Run, Step, Rank, Resting, Settles, OwnJob, ReachesJobs, ExpectedName, IsRunning, Lowers, JobGrows,
         Lists, Bystanders, PreGatesOpen, PostGatesOpen, IsSucceeded, IsFailed;
    KnowsAtAct(p, w, n, r);
    DeletionFalls(p, AtAct(p, w, n, r), n, j, r.act);
    RoundIsRun(p, w, n, r);
    var before := ActionsToAct(n, r);
    var after := r.acted + ([Create(n, r.create)] + r.created) + [Write(n, r.write)];
    assert ActionsOf(n, r) == before + ([Act(n, r.act)] + after);
    PrefixToAct(p, w, n, r);
    Decisive(p, w, before, Act(n, r.act), after, n);
  }

  lemma PrefixToAct(p: Params, w: World, n: string, r: Round)
    requires Undisturbed(p, w, n, r)
    ensures Run(p, w, ActionsToAct(n, r)) == AtAct(p, w, n, r)
    ensures Resting(p, w, ActionsToAct(n, r), n)
  {
    hide Run, Step, Resting, Bystanders, Lists;
    GoesOn(p, w, r.before, Fetch(n), r.fetched, n);
    GoesOn(p, w, r.before + ([Fetch(n)] + r.fetched), Look(n, r.look, r.items), r.looked, n);
  }

  lemma PrefixToCreate(p: Params, w: World, n: string, r: Round)
    requires Undisturbed(p, w, n, r)
    ensures
      Run(p, w, ActionsToAct(n, r) + ([Act(n, r.act)] + r.acted)) == AtCreate(p, w, n, r)
  {
    hide Run, Step, Resting, Bystanders, Lists;
    PrefixToAct(p, w, n, r);
    GoesOn(p, w, ActionsToAct(n, r), Act(n, r.act), r.acted, n);
  }

  lemma MissingRound(p: Params, w: World, n: string, r: Round)
    requires Sound(w, n) && Undisturbed(p, w, n, r) && Unhindered(p, w, n, r)
    requires OwnJob(AtLook(p, w, n, r).jobs, AtFetch(p, w, n, r).objects[n].uid).None?
    ensures Lowers(p, w, ActionsOf(n, r), n, 1)
  {
    hide Sound, Run, Step, Rank, Resting, Settles, OwnJob, ReachesJobs, ExpectedName, Lowers, Lists, Bystanders,
         PreGatesOpen, PostGatesOpen, IsSucceeded, IsFailed, LeftAlone;
    KnowsAtAct(p, w, n, r);
    var u := AtAct(p, w, n, r);
    ActClears(p, u, n, r.act);
    Moves(p, u, Act(n, r.act), r.acted, n);
    StillCleared(Step(p, u, Act(n, r.act)), AtCreate(p, w, n, r), n);
    CreationFalls(p, AtCreate(p, w, n, r), n, r.create);
    RoundIsRun(p, w, n, r);
    var before := ActionsToAct(n, r) + ([Act(n, r.act)] + r.acted);
    assert ActionsOf(n, r) == before + ([Create(n, r.create)] + (r.created + [Write(n, r.write)]));
    PrefixToCreate(p, w, n, r);
    Decisive(p, w, before, Create(n, r.create), r.created + [Write(n, r.write)], n);
  }

  lemma StillCleared(w: World, v: World, n: string)
    requires LeftAlone(w, v, n)
    ensures n in v.objects && SameObject(v.objects[n], w.objects[n])
    ensures n in w.flights ==> n in v.flights && v.flights[n] == w.flights[n]
    ensures JobGrows(OwnJob(w.jobs, w.objects[n].uid), OwnJob(v.jobs, w.objects[n].uid))
  {
    hide JobGrows, OwnJob;
  }

  lemma ActClears(p: Params, w: World, n: string, a: Answers)
    requires n in w.flights && w.flights[n] == Found(w.flights[n].o, None)
    requires PreGatesOpen(p, w.flights[n].o.spec, a)
    ensures Step(p, w, Act(n, a)) == w.(flights := w.flights[n := Cleared(w.flights[n].o, a)])
  {
    hide PreChecksResult, PreGatesOpen, SyncResult, CreateStep, UpdateStep, CollectStep, ForeignCreateStep,
         ForeignDeleteStep, RunJobStep, FetchStep, LookStep, CreateJobStep, WriteStep;
    PreChecksMeaning(p, w.flights[n].o.spec, a);
  }

  lemma ActSyncs(p: Params, w: World, n: string, j: Job, a: Answers)
    requires n in w.flights && w.flights[n] == Found(w.flights[n].o, Some(j))
    requires j.name == ExpectedName(p, w.flights[n].o)
    ensures
      var o := w.flights[n].o;
      var v := Step(p, w, Act(n, a));
      && v.objects == w.objects && v.jobs == w.jobs
      && v.flights == w.flights[n := Done(o, SyncResult(p, o, j, w.now, a))]
  {
    hide PreChecksResult, SyncResult, ExpectedName, CreateStep, UpdateStep, CollectStep, ForeignCreateStep,
         ForeignDeleteStep, RunJobStep, FetchStep, LookStep, CreateJobStep, WriteStep;
  }

  lemma NothingToCreate(p: Params, w: World, n: string, a: Answers)
    requires n in w.flights && w.flights[n].Done?
    ensures Step(p, w, Create(n, a)) == w
  {
  }

  /** A finished Job reports what it is. */
  lemma FinishedReports(p: Params, o: DBUpgrade, j: Job, now: Time, a: Answers)
    requires IsFinished(j)
    ensures
      var r := SyncResult(p, o, j, now, a);
      if IsSucceeded(j) then r.ready <==> PostGatesOpen(p, o.spec, CompletedAt(o, j, now), now, a)
      else r.readyReason == JobFailed
  {
    hide PostGatesOpen, PostChecksResult, IsSucceeded, IsFailed;
    History.ReadyMeansPassed(p, o, j, now, a);
  }

  lemma FinishedRound(p: Params, w: World, n: string, r: Round, j: Job)
    requires Sound(w, n) && Undisturbed(p, w, n, r) && Unhindered(p, w, n, r)
    requires
      var o := AtFetch(p, w, n, r).objects[n];
      OwnJob(AtLook(p, w, n, r).jobs, o.uid) == Some(j) && j.name == ExpectedName(p, o)
    ensures Lowers(p, w, ActionsOf(n, r), n, 1)
  {
    hide Sound, Lands, Run, Step, Rank, Resting, Settles, OwnJob, ReachesJobs, ExpectedName, Lowers, Lists, Bystanders,
         LeftAlone, PreGatesOpen, PostGatesOpen, IsSucceeded, IsFailed, SyncResult, CompletedAt, IsSettled, JobGrows;
    KnowsAtAct(p, w, n, r);
    var u := AtAct(p, w, n, r);
    var o := AtFetch(p, w, n, r).objects[n];
    ActSyncs(p, u, n, j, r.act);
    FinishedReports(p, o, j, u.now, r.act);
    var u2 := Step(p, u, Act(n, r.act));
    Moves(p, u, Act(n, r.act), r.acted, n);
    var u3 := AtCreate(p, w, n, r);
    StillCleared(u2, u3, n);
    NothingToCreate(p, u3, n, r.create);
    Moves(p, u3, Create(n, r.create), r.created, n);
    var u4 := AtWrite(p, w, n, r);
    StillCleared(u3, u4, n);
    GrowsFurther(Some(j), OwnJob(u2.jobs, o.uid), OwnJob(u3.jobs, o.uid));
    GrowsFurther(Some(j), OwnJob(u3.jobs, o.uid), OwnJob(u4.jobs, o.uid));
    EndedAs(j, OwnJob(u4.jobs, o.uid));
    WritingSettles(p, u4, n, r.write);
    RoundIsRun(p, w, n, r);
    SettledAtEnd(p, w, ActionsOf(n, r), n);
  }

  lemma EndedAs(j: Job, later: Option<Job>)
    requires JobGrows(Some(j), later) && IsFinished(j)
    ensures later.Some? && later.value.name == j.name && IsFinished(later.value)
    ensures IsSucceeded(later.value) <==> IsSucceeded(j)
  {
    hide IsSucceeded, IsFailed;
  }

  /** A round never raises the rank until the object is settled, and lowers it if nothing holds it up. */
  lemma RoundLowers(p: Params, w: World, n: string, r: Round)
    requires Sound(w, n) && Undisturbed(p, w, n, r)
    ensures Lowers(p, w, ActionsOf(n, r), n, if Unhindered(p, w, n, r) then 1 else 0)
  {
    hide Sound, Run, Step, Rank, Resting, Settles, OwnJob, Lowers, Undisturbed, ActionsOf;
    if Unhindered(p, w, n, r) {
      var o := AtFetch(p, w, n, r).objects[n];
      match OwnJob(AtLook(p, w, n, r).jobs, o.uid)
      case None => MissingRound(p, w, n, r);
      case Some(j) =>
        if j.name == ExpectedName(p, o) {
          FinishedRound(p, w, n, r, j);
        } else {
          StaleRound(p, w, n, r, j);
        }
    } else {
      RoundIsRun(p, w, n, r);
      NeverRises(p, w, ActionsOf(n, r), n);
    }
  }

  // ---------- Many rounds ----------

  ghost predicate AllUndisturbed(p: Params, w: World, n: string, rounds: seq<Round>)
    decreases |rounds|
  {
    rounds == [] ||
    (Undisturbed(p, w, n, rounds[0]) && AllUndisturbed(p, AfterRound(p, w, n, rounds[0]), n, rounds[1..]))
  }

  function AllActions(n: string, rounds: seq<Round>): seq<Action> {
    if rounds == [] then [] else ActionsOf(n, rounds[0]) + AllActions(n, rounds[1..])
  }

  /** The number of reconciles that nothing held up. */
  ghost function UnhinderedCount(p: Params, w: World, n: string, rounds: seq<Round>): nat
    decreases |rounds|
  {
    if rounds == [] then 0
    else
      var rest := UnhinderedCount(p, AfterRound(p, w, n, rounds[0]), n, rounds[1..]);
      if Unhindered(p, w, n, rounds[0]) then rest + 1 else rest
  }

  /** Every object whose spec rests settles: whatever the API answers, whatever crashes and whatever others do
      before, between and after the steps, it takes no more reconciles that nothing holds up than its rank,
      which is four at most. */
  lemma {:induction false} EventuallySettled(p: Params, w: World, n: string, rounds: seq<Round>)
    requires Sound(w, n) && AllUndisturbed(p, w, n, rounds)
    requires UnhinderedCount(p, w, n, rounds) >= Rank(p, w, n)
    ensures Settles(p, w, AllActions(n, rounds), n)
    decreases |rounds|
  {
    hide StoreInv, StatusInv, Rank, IsSettled, Unhindered, Undisturbed, AfterRound, ActionsOf, Run, Step;
    SettledIsRankZero(p, w, n);
    if !IsSettled(p, w, n) {
      RoundLowers(p, w, n, rounds[0]);
      RoundIsRun(p, w, n, rounds[0]);
      SettlesConcat(p, w, ActionsOf(n, rounds[0]), AllActions(n, rounds[1..]), n);
      if !Settles(p, w, ActionsOf(n, rounds[0]), n) {
        EventuallySettled(p, AfterRound(p, w, n, rounds[0]), n, rounds[1..]);
      }
    }
  }

  /** After two reconciles that nothing holds up, the object has a Job for its spec, whatever stale Job it
      had before. */
  lemma ReplacedInTwo(p: Params, w: World, n: string, first: Round, second: Round)
    requires Sound(w, n)
    requires Undisturbed(p, w, n, first) && Unhindered(p, w, n, first)
    requires
      var u := AfterRound(p, w, n, first);
      Undisturbed(p, u, n, second) && Unhindered(p, u, n, second)
    ensures
      var v := AfterRound(p, AfterRound(p, w, n, first), n, second);
      && n in v.objects && SameObject(v.objects[n], w.objects[n])
      && OwnJob(v.jobs, w.objects[n].uid).Some?
      && OwnJob(v.jobs, w.objects[n].uid).value.name == ExpectedName(p, v.objects[n])
  {
    hide StoreInv, StatusInv, IsSettled, Settles, Undisturbed, Unhindered, AfterRound, ActionsOf, OwnJob,
         ExpectedName, Settled, IsFinished, Run, Resting;
    RoundLowers(p, w, n, first);
    RoundIsRun(p, w, n, first);
    var u := AfterRound(p, w, n, first);
    RoundLowers(p, u, n, second);
    RoundIsRun(p, u, n, second);
  }

  // ---------- From anywhere ----------

  /** The status of a reconcile that has read an older spec never lands on the object, which stays what it is. */
  lemma OutdatedStepsOn(p: Params, w: World, action: Action, n: string)
    requires StoreInv(w) && n in w.objects && OperatorStep(action, n)
    ensures
      var v := Step(p, w, action);
      && n in v.objects && SameObject(v.objects[n], w.objects[n])
      && (n !in w.flights || w.flights[n].o == w.objects[n] || v.objects == w.objects)
  {
    hide JobsOk, OneJobEach, OwnsNone, StillOwn, NewStatus, EarlyResult, PreChecksResult, SyncResult, ExpectedName,
         IsRunning, Lists, FirstOwned, CreateStep, UpdateStep, CollectStep, ForeignCreateStep, ForeignDeleteStep,
         RunJobStep, LookStep, ActStep, CreateJobStep;
    match action
    case Look(_, a, items) => OperatorKeepsObjects(p, w, n, a, items);
    case Act(_, a) => OperatorKeepsObjects(p, w, n, a, []);
    case Create(_, a) => OperatorKeepsObjects(p, w, n, a, []);
    case Write(_, a) =>
      if Lands(w, n, a) {
        LandsAsRead(w, n, a);
      }
    case _ =>
  }

  /** Whatever reconcile is under way at the start, on whatever older read, the object stays what it is until it
      has ended. */
  lemma {:induction false} OutdatedEnds(p: Params, w: World, actions: seq<Action>, n: string)
    requires StoreInv(w) && StatusInv(w) && n in w.objects && Resting(p, w, actions, n)
    ensures
      var v := Run(p, w, actions);
      StoreInv(v) && StatusInv(v) && n in v.objects && SameObject(v.objects[n], w.objects[n])
    decreases |actions|
  {
    hide StoreInv, StatusInv, Step, Bystander, OperatorStep, JobGrows, OwnJob;
    if actions != [] {
      StoreInvStep(p, w, actions[0]);
      StatusInvStep(p, w, actions[0]);
      if OperatorStep(actions[0], n) {
        OutdatedStepsOn(p, w, actions[0], n);
      } else {
        BystanderLeavesAlone(p, w, actions[0], n);
      }
      OutdatedEnds(p, Step(p, w, actions[0]), actions[1..], n);
    }
  }

  /** Whatever the state, and whatever reconcile was under way on an older read of the object: once it has ended,
      four reconciles that nothing holds up are enough. */
  lemma SettledFromAnywhere(p: Params, w: World, n: string, first: seq<Action>, rounds: seq<Round>)
    requires StoreInv(w) && StatusInv(w) && n in w.objects
    requires Resting(p, w, first, n) && n !in Run(p, w, first).flights
    requires AllUndisturbed(p, Run(p, w, first), n, rounds)
    requires UnhinderedCount(p, Run(p, w, first), n, rounds) >= 4
    ensures Settles(p, w, first + AllActions(n, rounds), n)
  {
    hide StoreInv, StatusInv, RankOf, Run, Settles, Resting, AllUndisturbed, AllActions, OwnJob;
    OutdatedEnds(p, w, first, n);
    var v := Run(p, w, first);
    assert Rank(p, v, n) <= 4;
    EventuallySettled(p, v, n, rounds);
    SettlesConcat(p, w, first, AllActions(n, rounds), n);
  }
}
