/** The operator, the API server, the Job controller and the users as one state machine. Reconciles
    of different objects interleave, and a crash may come between any two of their API calls. */
module Protocol {
  import opened Types
  import opened Conditions
  import opened Decision
  import Webhook

  // ---------- State ----------

  /** How far a reconcile of one object has come, with the object as it was read. */
  datatype Flight =
    | Fetched(o: DBUpgrade)
    | Found(o: DBUpgrade, job: Option<Job>)
    | Cleared(o: DBUpgrade, answers: Answers)   // the pre-checks passed on these answers
    | Done(o: DBUpgrade, result: ReconcileResult)

  /** What has happened. */
  datatype Event =
    | Stored(uid: Uid, generation: nat, spec: Spec)
    | JobCreated(o: DBUpgrade, job: Job, answers: Answers)
    | JobDeleted(o: DBUpgrade, seen: Job, victim: Job)
    | JobCollected(job: Job)
    | JobCompleted(job: Job)
    | Synced(o: DBUpgrade, job: Job, now: Time, answers: Answers, result: ReconcileResult)
    | Landed(o: DBUpgrade, result: ReconcileResult)

  /** The store of one namespace, the reconciles under way, the clock, and the history. The keys are the
      names that all UIDs ever issued were issued for. */
  datatype World = World(
    objects: map<string, DBUpgrade>,
    jobs: map<string, Job>,
    flights: map<string, Flight>,
    keys: map<Uid, string>,
    nextUid: nat,
    nextVersion: nat,
    now: Time,
    log: seq<Event>)

  const INIT: World := World(map[], map[], map[], map[], 0, 0, 0, [])

  predicate OwnedBy(j: Job, uid: Uid) {
    uid in j.owners
  }

  predicate Live(w: World, uid: Uid) {
    uid in w.keys && w.keys[uid] in w.objects && w.objects[w.keys[uid]].uid == uid
  }

  // ---------- Actions ----------

  datatype Action =
    // users
    | CreateObject(name: string, spec: Spec)
    | UpdateObject(name: string, spec: Spec)
    | DeleteObject(name: string)
    // the rest of the cluster
    | CollectJob(name: string)
    | ForeignCreate(job: Job)
    | ForeignDelete(name: string)
    | RunJob(name: string, status: JobStatus)
    | Tick(span: nat)
    // the operator
    | Fetch(name: string)
    | Look(name: string, answers: Answers, items: seq<Job>)
    | Act(name: string, answers: Answers)
    | Create(name: string, answers: Answers)
    | Write(name: string, answers: Answers)
    | Crash(name: string)

  /** One step. An action that is not possible changes nothing, so every sequence of actions is a run. */
  ghost function Step(p: Params, w: World, action: Action): World {
    match action
    case CreateObject(n, spec) => CreateStep(p, w, n, spec)
    case UpdateObject(n, spec) => UpdateStep(p, w, n, spec)
    case DeleteObject(n) => w.(objects := w.objects - {n})
    case CollectJob(n) => CollectStep(w, n)
    case ForeignCreate(j) => ForeignCreateStep(w, j)
    case ForeignDelete(n) => ForeignDeleteStep(w, n)
    case RunJob(n, status) => RunJobStep(w, n, status)
    case Tick(span) => w.(now := w.now + span)
    case Fetch(n) => FetchStep(w, n)
    case Look(n, a, items) => LookStep(p, w, n, a, items)
    case Act(n, a) => ActStep(p, w, n, a)
    case Create(n, a) => CreateJobStep(p, w, n, a)
    case Write(n, a) => WriteStep(w, n, a)
    case Crash(n) => w.(flights := w.flights - {n})
  }

  ghost function Run(p: Params, w: World, actions: seq<Action>): World
    decreases |actions|
  {
    if actions == [] then w else Run(p, Step(p, w, actions[0]), actions[1..])
  }

  // ---------- Users ----------

  /** A user creates an object. The status of what was sent is dropped: it is a subresource. */
  ghost function CreateStep(p: Params, w: World, n: string, spec: Spec): World {
    if n in w.objects || (p.webhook && !Webhook.AdmitsCreate(p.parse, spec)) then w
    else
      var uid := UpgradeUid(w.nextUid);
      w.(objects := w.objects[n := DBUpgrade(n, uid, 1, w.nextVersion, spec, EMPTY_STATUS)],
         keys := w.keys[uid := n],
         nextUid := w.nextUid + 1,
         nextVersion := w.nextVersion + 1,
         log := w.log + [Stored(uid, 1, spec)])
  }

  /** A user updates an object; the generation counts the changes of the spec. */
  ghost function UpdateStep(p: Params, w: World, n: string, spec: Spec): World {
    if n !in w.objects || (p.webhook && !Webhook.AdmitsUpdate(p.parse, w.objects[n], spec)) then w
    else
      var o := w.objects[n];
      var generation := if spec == o.spec then o.generation else o.generation + 1;
      w.(objects := w.objects[n := o.(spec := spec, generation := generation, resourceVersion := w.nextVersion)],
         nextVersion := w.nextVersion + 1,
         log := if spec == o.spec then w.log else w.log + [Stored(o.uid, generation, spec)])
  }

  // ---------- The rest of the cluster ----------

  /** Garbage collection: a Job goes when none of its owners, all of them DBUpgrades, exists any more. */
  ghost function CollectStep(w: World, n: string): World {
    if n in w.jobs && w.jobs[n].owners != [] && (forall u | u in w.jobs[n].owners :: u.UpgradeUid? && !Live(w, u)) then
      w.(jobs := w.jobs - {n}, log := w.log + [JobCollected(w.jobs[n])])
    else w
  }

  /** Others create and delete Jobs of their own. */
  predicate IsForeign(j: Job) {
    forall u | u in j.owners :: u.ForeignUid?
  }

  ghost function ForeignCreateStep(w: World, j: Job): World {
    if j.name !in w.jobs && IsForeign(j) then w.(jobs := w.jobs[j.name := j]) else w
  }

  ghost function ForeignDeleteStep(w: World, n: string): World {
    if n in w.jobs && IsForeign(w.jobs[n]) then w.(jobs := w.jobs - {n}) else w
  }

  /** A Job that is complete, or failed, stays so; what else its status says is up to the Job controller. */
  predicate Later(j: Job, k: Job) {
    && k.name == j.name
    && k.owners == j.owners
    && (IsSucceeded(j) ==> IsSucceeded(k))
    && (IsFailed(j) ==> IsFailed(k))
  }

  ghost function RunJobStep(w: World, n: string, status: JobStatus): World {
    if n in w.jobs && Later(w.jobs[n], w.jobs[n].(status := status)) then
      var job := w.jobs[n].(status := status);
      w.(jobs := w.jobs[n := job],
         log := if IsSucceeded(job) && !IsSucceeded(w.jobs[n]) then w.log + [JobCompleted(job)] else w.log)
    else w
  }

  // ---------- The operator ----------

  /** Reconcile begins: the object is read. Reconciles of one object are serialized. */
  ghost function FetchStep(w: World, n: string): World {
    if n in w.objects && n !in w.flights then w.(flights := w.flights[n := Fetched(w.objects[n])]) else w
  }

  /** The items are what listing the Jobs answers, in any order. */
  ghost predicate Lists(items: seq<Job>, jobs: map<string, Job>) {
    forall j: Job :: j in items <==> j.name in jobs && jobs[j.name] == j
  }

  /** getJobForDBUpgrade: the first Job listed that the object owns. */
  function FirstOwned(items: seq<Job>, uid: Uid): (found: Option<Job>)
    ensures found.Some? ==> found.value in items && OwnedBy(found.value, uid)
    ensures found.None? ==> forall j | j in items :: !OwnedBy(j, uid)
  {
    if items == [] then None
    else if OwnedBy(items[0], uid) then Some(items[0])
    else FirstOwned(items[1..], uid)
  }

  /** The database is looked at, then the Jobs are listed. */
  ghost function LookStep(p: Params, w: World, n: string, a: Answers, items: seq<Job>): World {
    if n in w.flights && w.flights[n].Fetched? && Lists(items, w.jobs) then
      var o := w.flights[n].o;
      var early := EarlyResult(o.spec, a);
      w.(flights := w.flights[n :=
        if early.Some? then Done(o, early.value)
        else if !a.listed then Done(o, Stopped(Initializing, 5))
        else Found(o, FirstOwned(items, o.uid))])
    else w
  }

  /** A stale Job is waited for or deleted, a current one is read off, and if there is none the pre-checks
      are made. */
  ghost function ActStep(p: Params, w: World, n: string, a: Answers): World {
    if n in w.flights && w.flights[n].Found? then
      var o := w.flights[n].o;
      match w.flights[n].job
      case None =>
        var pre := PreChecksResult(p, o.spec, a);
        w.(flights := w.flights[n := if pre.ready then Cleared(o, a) else Done(o, pre)])
      case Some(job) =>
        if job.name == ExpectedName(p, o) then
          var r := SyncResult(p, o, job, w.now, a);
          w.(flights := w.flights[n := Done(o, r)], log := w.log + [Synced(o, job, w.now, a, r)])
        else if IsRunning(job) then
          w.(flights := w.flights[n := Done(o, InProgress(Initializing, MigrationInProgress, 10))])
        else DeleteJobStep(w, n, o, job, a)
    else w
  }

  /** Deleting is by name. A Job that is gone already counts as deleted. */
  ghost function DeleteJobStep(w: World, n: string, o: DBUpgrade, job: Job, a: Answers): World {
    var ended := w.flights[n := Done(o, Stopped(Initializing, if a.deleted.Answered? then 2 else 5))];
    if !a.deleted.TakesEffect() then w.(flights := ended)
    else
      w.(flights := ended,
         jobs := w.jobs - {job.name},
         log := if job.name in w.jobs then w.log + [JobDeleted(o, job, w.jobs[job.name])] else w.log)
  }

  /** The Job for a spec, as it is created. */
  function NewJob(p: Params, o: DBUpgrade): Job {
    Job(ExpectedName(p, o), [o.uid], NEW_JOB_STATUS)
  }

  ghost function CreateJobStep(p: Params, w: World, n: string, a: Answers): World {
    if n in w.flights && w.flights[n].Cleared? then
      var o := w.flights[n].o;
      var job := NewJob(p, o);
      var seconds := if job.name in w.jobs then 2 else 5;
      var r := if a.created.Answered? then InProgress(Initializing, JobPending, seconds) else Stopped(JobFailed, 30);
      var ended := w.flights[n := Done(o, r)];
      if !a.created.TakesEffect() || job.name in w.jobs then w.(flights := ended)
      else
        w.(flights := ended,
           jobs := w.jobs[job.name := job],
           log := w.log + [JobCreated(o, job, w.flights[n].answers)])
    else w
  }

  /** Objects are stored with times in whole seconds. */
  function WholeSeconds(t: Time): (whole: Time)
    ensures t - SECOND < whole <= t
    ensures whole % SECOND == 0
    ensures t % SECOND == 0 ==> whole == t
  {
    t - t % SECOND
  }

  function AsStored(s: Status): Status {
    s.(jobCompletedAt := if s.jobCompletedAt.Some? then Some(WholeSeconds(s.jobCompletedAt.value)) else None)
  }

  /** updateStatus, on the object as it was read. */
  function NewStatus(o: DBUpgrade, r: ReconcileResult, now: Time): Status {
    var readied := WithCondition(o.status.conditions, Ready, r.ready, r.readyReason, o.generation, now);
    AsStored(Status(
      o.generation,
      if r.jobCompletedAt.Some? then r.jobCompletedAt else o.status.jobCompletedAt,
      WithCondition(readied, Progressing, r.progressing, r.progressReason, o.generation, now)))
  }

  /** The write lands only on the version of the object that was read. */
  predicate Lands(w: World, n: string, a: Answers) {
    && n in w.flights && w.flights[n].Done?
    && a.written.TakesEffect()
    && n in w.objects && w.objects[n].resourceVersion == w.flights[n].o.resourceVersion
  }

  ghost function WriteStep(w: World, n: string, a: Answers): World {
    if n in w.flights && w.flights[n].Done? then
      var Done(o, r) := w.flights[n];
      var ended := w.(flights := w.flights - {n});
      if Lands(w, n, a) then
        var written := w.objects[n].(status := NewStatus(o, r, w.now), resourceVersion := w.nextVersion);
        ended.(objects := w.objects[n := written],
               nextVersion := w.nextVersion + 1,
               log := w.log + [Landed(o, r)])
      else ended
    else w
  }

  // ---------- Runs ----------

  /** A whole reconcile without interference, whatever branch it takes. */
  function Script(n: string, a: Answers, items: seq<Job>): seq<Action> {
    [Fetch(n), Look(n, a, items), Act(n, a), Create(n, a), Write(n, a)]
  }

  lemma {:induction false} RunConcat(p: Params, w: World, first: seq<Action>, second: seq<Action>)
    ensures Run(p, w, first + second) == Run(p, Run(p, w, first), second)
    decreases |first|
  {
    if first == [] {
      assert first + second == second;
    } else {
      assert (first + second)[1..] == first[1..] + second;
      RunConcat(p, Step(p, w, first[0]), first[1..], second);
    }
  }
}
