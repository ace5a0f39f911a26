/** The controller itself, working on the objects of the API server step by step
    (controllers/dbupgrade_controller.go). A reconcile that nobody interferes with does to the server
    exactly what its steps do in the protocol. */
module Reconciler {
  import opened Types
  import opened Conditions
  import opened Decision
  import opened Protocol
  import opened StoreSafety
  import opened Atomic
  import OwnJobs
  import VersionGate
  import MetricGate

  datatype ApiError = NoError | NotFound | AlreadyExists | Conflict | OtherError

  /** What a reconcile finds in the API server, through its client. */
  class Client {
    var objects: map<string, DBUpgrade>
    var jobs: map<string, Job>
    var nextVersion: nat
    var now: Time

    constructor (ghost w: World, objects: map<string, DBUpgrade>, jobs: map<string, Job>, nextVersion: nat, now: Time)
      requires objects == w.objects && jobs == w.jobs && nextVersion == w.nextVersion && now == w.now
      ensures Pictures(w)
    {
      this.objects, this.jobs, this.nextVersion, this.now := objects, jobs, nextVersion, now;
    }

    /** The server is in this state. */
    ghost predicate Pictures(w: World)
      reads this
    {
      objects == w.objects && jobs == w.jobs && nextVersion == w.nextVersion && now == w.now
    }

    method ListJobs(up: bool) returns (items: Result<seq<Job>>)
      requires forall n | n in jobs :: jobs[n].name == n
      ensures items.Ok? <==> up
      ensures items.Ok? ==> Lists(items.value, jobs)
    {
      if !up {
        return Err;
      }
      var listed := [];
      var rest := jobs.Keys;
      while rest != {}
        invariant rest <= jobs.Keys
        invariant forall j: Job :: j in listed <==> j.name in jobs && j.name !in rest && jobs[j.name] == j
      {
        var n :| n in rest;
        listed := listed + [jobs[n]];
        rest := rest - {n};
      }
      return Ok(listed);
    }

    method DeleteJob(name: string, call: Call) returns (err: ApiError)
      modifies this`jobs
      ensures jobs == if call.TakesEffect() then old(jobs) - {name} else old(jobs)
      ensures err == if !call.Answered? then OtherError else if name in old(jobs) then NoError else NotFound
    {
      err := if call.Answered? then (if name in jobs then NoError else NotFound) else OtherError;
      if call.TakesEffect() {
        jobs := jobs - {name};
      }
    }

    method CreateJob(job: Job, call: Call) returns (err: ApiError)
      modifies this`jobs
      ensures jobs == if call.TakesEffect() && job.name !in old(jobs) then old(jobs)[job.name := job] else old(jobs)
      ensures err == if !call.Answered? then OtherError else if job.name in old(jobs) then AlreadyExists else NoError
    {
      err := if call.Answered? then (if job.name in jobs then AlreadyExists else NoError) else OtherError;
      if call.TakesEffect() && job.name !in jobs {
        jobs := jobs[job.name := job];
      }
    }

    /** Only the status is written, in whole seconds, and only on the version that is stored. */
    method UpdateStatus(o: DBUpgrade, call: Call) returns (err: ApiError)
      modifies this`objects, this`nextVersion
      ensures
        var stored := o.name in old(objects) && old(objects)[o.name].resourceVersion == o.resourceVersion;
        && (err == NoError <==> call.Answered? && stored)
        && (call.TakesEffect() && stored ==>
              && objects == old(objects)[o.name :=
                   old(objects)[o.name].(status := AsStored(o.status), resourceVersion := old(nextVersion))]
              && nextVersion == old(nextVersion) + 1)
        && (!(call.TakesEffect() && stored) ==> objects == old(objects) && nextVersion == old(nextVersion))
    {
      var refusal :=
        if o.name !in objects then NotFound
        else if objects[o.name].resourceVersion != o.resourceVersion then Conflict
        else NoError;
      err := if call.Answered? then refusal else OtherError;
      if call.TakesEffect() && refusal == NoError {
        objects := objects[o.name := objects[o.name].(status := AsStored(o.status), resourceVersion := nextVersion)];
        nextVersion := nextVersion + 1;
      }
    }
  }

  class DBUpgradeReconciler {
    const client: Client
    const p: Params

    constructor (client: Client, p: Params)
      ensures this.client == client && this.p == p
    {
      this.client, this.p := client, p;
    }

    /** Reconcile. A status that is not known to be written is an error, after which the framework tries again;
        otherwise the answer is the delay of the result that landed, if it has one. There is none for an object
        that is stored exactly if it lacks its AWS settings, or if its own Job for the current spec is complete
        with every post gate open or with a bake time that overflows, or has failed. */
    method Reconcile(n: string, a: Answers, ghost w: World) returns (requeueAfter: Result<int>)
      requires client.Pictures(w) && StoreInv(w) && n !in w.flights
      modifies client
      ensures forall items | Lists(items, w.jobs) :: client.Pictures(Run(p, w, Script(n, a, items)))
      ensures n !in w.objects ==> requeueAfter == Ok(0)
      ensures n in w.objects && a.written != Answered ==> requeueAfter == Err
      ensures n in w.objects && a.written == Answered ==>
        forall items | Lists(items, w.jobs) ::
          var log := Run(p, w, Script(n, a, items)).log;
          && |log| > 0 && log[|log| - 1].Landed? && log[|log| - 1].o == w.objects[n]
          && var delay := log[|log| - 1].result.requeueAfter;
             requeueAfter == Ok(if delay > 0 then delay else 0)
      ensures n in w.objects && a.written == Answered ==>
        var o := w.objects[n];
        var m := "dbupgrade-" + o.name + "-" + p.hash(o.spec);
        requeueAfter == Ok(0) <==>
          || ((o.spec.database.kind == AwsRds || o.spec.database.kind == AwsAurora) && o.spec.database.aws == None)
          || (&& ReachesJobs(o.spec, a) && m in w.jobs && o.uid in w.jobs[m].owners
              && if JobCondition(JobCompleteCondition, ConditionTrue) in w.jobs[m].status.conditions then
                   || PostGatesOpen(p, o.spec, CompletedAt(o, w.jobs[m], w.now), w.now, a)
                   || BakeOverflows(p, o.spec, CompletedAt(o, w.jobs[m], w.now), w.now, a)
                 else JobCondition(JobFailedCondition, ConditionTrue) in w.jobs[m].status.conditions)
    {
      hide Run, Script, Lists, OutcomeOf, NewStatus, OwnJobs.OwnJob, JobsOk, OneJobEach, FlightsOk, ReachesJobs,
           PostGatesOpen, BakeOverflows, CompletedAt;
      if n !in client.objects {
        AbsentForAll(p, w, n, a);
        return Ok(0);
      }
      var o := client.objects[n];
      var result := ReconcileDBUpgrade(o, a, w);
      var err := UpdateStatus(o, result, a);
      OutcomeForAll(p, w, n, a);
      ComesBackUnless(p, w, n, a);
      if err != NoError {
        return Err;
      }
      if result.requeueAfter > 0 {
        return Ok(result.requeueAfter);
      }
      return Ok(0);
    }

    /** reconcileDBUpgrade */
    method ReconcileDBUpgrade(o: DBUpgrade, a: Answers, ghost w: World) returns (r: ReconcileResult)
      requires client.Pictures(w) && StoreInv(w) && o.uid.UpgradeUid?
      modifies client`jobs
      ensures
        var out := OutcomeOf(p, o, w.jobs, OwnJobs.OwnJob(w.jobs, o.uid), w.now, a);
        r == out.result && client.Pictures(w.(jobs := out.jobs))
    {
      hide SyncResult, IsRunning, ObjectsOk, OneJobEach, FlightsOk, OwnedBy, NamedFor, JobName, OwnJobs.OwnJob,
           FirstOwned, Lists, PreChecksResult, Stopped, InProgress;
      if o.spec.database.kind.SelfHosted? && !SecretIsValid(o.spec.database, a) {
        return Stopped(SecretNotFound, 30);
      }
      if (o.spec.database.kind.AwsRds? || o.spec.database.kind.AwsAurora?) && o.spec.database.aws.None? {
        return Stopped(AWSNotSupported, 0);
      }
      if o.spec.database.kind.OtherDatabase? || !a.secretEnsured {
        return Stopped(SecretNotFound, 10);
      }
      var items := client.ListJobs(a.listed);
      if items.Err? {
        return Stopped(Initializing, 5);
      }
      var existingJob := GetJobForDBUpgrade(o, items.value);
      OwnJobs.FoundIsOwn(w, items.value, o.uid);
      var expectedJobName := ExpectedName(p, o);
      if existingJob.Some? && existingJob.value.name != expectedJobName {
        if IsRunning(existingJob.value) {
          return InProgress(Initializing, MigrationInProgress, 10);
        }
        var err := client.DeleteJob(existingJob.value.name, a.deleted);
        if err != NoError && err != NotFound {
          return Stopped(Initializing, 5);
        }
        return Stopped(Initializing, 2);
      }
      if existingJob.None? {
        WithoutChecks(p, o.spec, a);
        if o.spec.checks.Some? {
          var preCheckResult := RunPreChecks(o, a);
          if !preCheckResult.ready {
            return preCheckResult;
          }
        }
        var err := CreateMigrationJob(o, p.hash(o.spec), a);
        if err == AlreadyExists {
          return InProgress(Initializing, JobPending, 2);
        }
        if err != NoError {
          return Stopped(JobFailed, 30);
        }
        return InProgress(Initializing, JobPending, 5);
      }
      r := SyncJobStatus(o, existingJob.value, a);
    }

    /** getJobForDBUpgrade */
    method GetJobForDBUpgrade(o: DBUpgrade, items: seq<Job>) returns (found: Option<Job>)
      ensures found == FirstOwned(items, o.uid)
    {
      for i := 0 to |items|
        invariant FirstOwned(items, o.uid) == FirstOwned(items[i..], o.uid)
      {
        assert items[i..][1..] == items[i + 1..];
        var owners := items[i].owners;
        for k := 0 to |owners|
          invariant o.uid !in owners[..k]
        {
          if owners[k] == o.uid {
            return Some(items[i]);
          }
        }
        assert owners[..|owners|] == owners;
      }
      return None;
    }

    /** createMigrationJob: its name, its owner and what happens if the name is taken. */
    method CreateMigrationJob(o: DBUpgrade, specHash: SpecHash, a: Answers) returns (err: ApiError)
      modifies client`jobs
      ensures
        var job := Job(JobName(o.name, specHash), [o.uid], NEW_JOB_STATUS);
        var taken := job.name in old(client.jobs);
        && client.jobs == (if a.created.TakesEffect() && !taken then old(client.jobs)[job.name := job]
                           else old(client.jobs))
        && err == (if !a.created.Answered? then OtherError else if taken then AlreadyExists else NoError)
    {
      var jobName := JobName(o.name, specHash);
      err := client.CreateJob(Job(jobName, [o.uid], NEW_JOB_STATUS), a.created);
    }

    /** updateStatus: the conditions are set in place on the object as it was read. */
    method UpdateStatus(o: DBUpgrade, r: ReconcileResult, a: Answers) returns (err: ApiError)
      requires o.name in client.objects && client.objects[o.name] == o
      modifies client`objects, client`nextVersion
      ensures err == NoError <==> a.written.Answered?
      ensures a.written.TakesEffect() ==>
        && client.objects == old(client.objects)[o.name :=
             o.(status := NewStatus(o, r, client.now), resourceVersion := old(client.nextVersion))]
        && client.nextVersion == old(client.nextVersion) + 1
      ensures !a.written.TakesEffect() ==>
        client.objects == old(client.objects) && client.nextVersion == old(client.nextVersion)
    {
      var jobCompletedAt := o.status.jobCompletedAt;
      if r.jobCompletedAt.Some? {
        jobCompletedAt := r.jobCompletedAt;
      }
      var conditions := new ConditionList(o.status.conditions);
      conditions.SetReady(r.ready, r.readyReason, o.generation, client.now);
      conditions.SetProgressing(r.progressing, r.progressReason, o.generation, client.now);
      err := client.UpdateStatus(o.(status := Status(o.generation, jobCompletedAt, conditions.items)), a.written);
    }

    /** syncJobStatus */
    method SyncJobStatus(o: DBUpgrade, job: Job, a: Answers) returns (r: ReconcileResult)
      ensures r == SyncResult(p, o, job, client.now, a)
      ensures r.ready ==> JobCondition(JobCompleteCondition, ConditionTrue) in job.status.conditions
      ensures
        && JobCondition(JobFailedCondition, ConditionTrue) in job.status.conditions
        && JobCondition(JobCompleteCondition, ConditionTrue) !in job.status.conditions ==>
          r == ReconcileResult(false, JobFailed, false, JobFailed, 0, None)
      ensures
        && JobCondition(JobFailedCondition, ConditionTrue) !in job.status.conditions
        && JobCondition(JobCompleteCondition, ConditionTrue) !in job.status.conditions ==>
          && !r.ready && r.progressing && r.requeueAfter > 0
          && r.progressReason == if job.status.active > 0 then MigrationInProgress else JobPending
    {
      hide SyncResult;
      SyncMeaning(p, o, job, client.now, a);
      ConditionsDecide(job);
      SyncUnfolds(p, o, job, client.now, a);
      if IsSucceeded(job) {
        var jobCompletedAt := client.now;
        if job.status.completionTime.Some? {
          jobCompletedAt := job.status.completionTime.value;
        } else if o.status.jobCompletedAt.Some? {
          jobCompletedAt := o.status.jobCompletedAt.value;
        }
        if o.spec.checks.Some? && |o.spec.checks.value.postMetrics| > 0 {
          var postCheckResult := RunPostChecks(o, jobCompletedAt, a);
          if !postCheckResult.ready {
            return postCheckResult.(jobCompletedAt := Some(jobCompletedAt));
          }
        }
        return ReconcileResult(true, MigrationComplete, false, MigrationComplete, 0, Some(jobCompletedAt));
      }
      if IsFailed(job) {
        return Stopped(JobFailed, 0);
      }
      if IsRunning(job) {
        return InProgress(Initializing, MigrationInProgress, 10);
      }
      return InProgress(Initializing, JobPending, 5);
    }

    /** runPreChecks */
    method RunPreChecks(o: DBUpgrade, a: Answers) returns (r: ReconcileResult)
      ensures r == PreChecksResult(p, o.spec, a)
    {
      if o.spec.checks.None? {
        return PASSED;
      }
      var pre := o.spec.checks.value.pre;
      if |pre.minPodVersions| > 0 {
        var result := VersionGate.CheckMinPodVersions(p.parse, a.pods, pre.minPodVersions);
        if result.Err? {
          return Stopped(PreCheckImageVersionFailed, 30);
        }
        if !result.value {
          return Stopped(PreCheckImageVersionFailed, 60);
        }
      }
      if |pre.metrics| > 0 && p.restConfig {
        if !a.checkerBuilt {
          return Stopped(PreCheckMetricFailed, 30);
        }
        var result := MetricGate.CheckMetrics(a.metrics, pre.metrics);
        if result.Err? {
          return Stopped(PreCheckMetricFailed, 30);
        }
        if !result.value {
          return Stopped(PreCheckMetricFailed, 60);
        }
      }
      return PASSED;
    }

    /** runPostChecks */
    method RunPostChecks(o: DBUpgrade, jobCompletedAt: Time, a: Answers) returns (r: ReconcileResult)
      ensures r == PostChecksResult(p, o.spec, jobCompletedAt, client.now, a)
    {
      if o.spec.checks.None? || |o.spec.checks.value.postMetrics| == 0 {
        return PASSED;
      }
      if !p.restConfig {
        return PASSED;
      }
      var metrics := o.spec.checks.value.postMetrics;
      var maxBakeSeconds: Int32 := 0;
      for i := 0 to |metrics|
        invariant maxBakeSeconds == MaxBake(metrics[..i])
      {
        assert metrics[..i + 1][..i] == metrics[..i];
        if metrics[i].bakeSeconds > maxBakeSeconds {
          maxBakeSeconds := metrics[i].bakeSeconds;
        }
      }
      assert metrics[..|metrics|] == metrics;
      if maxBakeSeconds > 0 {
        var elapsedSeconds := ElapsedSeconds(client.now - jobCompletedAt, a.outOfRange);
        if elapsedSeconds < maxBakeSeconds {
          var remainingSeconds := Wrap32(maxBakeSeconds - elapsedSeconds);
          return InProgress(PostCheckBakeTimeWaiting, PostCheckBakeTimeWaiting, remainingSeconds);
        }
      }
      if !a.checkerBuilt {
        return Stopped(PostCheckFailed, 30);
      }
      var result := MetricGate.CheckMetrics(a.metrics, metrics);
      if result.Err? {
        return Stopped(PostCheckFailed, 30);
      }
      if !result.value {
        return Stopped(PostCheckFailed, 60);
      }
      return PASSED;
    }
  }

  /** Whatever order the Jobs are listed in. */
  lemma OutcomeForAll(p: Params, w: World, n: string, a: Answers)
    requires StoreInv(w) && n in w.objects && n !in w.flights
    ensures
      var o := w.objects[n];
      var out := OutcomeOf(p, o, w.jobs, OwnJobs.OwnJob(w.jobs, o.uid), w.now, a);
      forall items | Lists(items, w.jobs) ::
        var v := Run(p, w, Script(n, a, items));
        && v.jobs == out.jobs
        && v.objects == w.objects[n := Written(w, o, out.result, a)]
        && v.nextVersion == (if a.written.TakesEffect() then w.nextVersion + 1 else w.nextVersion)
        && v.now == w.now
        && (a.written.TakesEffect() ==> |v.log| > 0 && v.log[|v.log| - 1] == Landed(o, out.result))
  {
    hide Run, Script, Lists, FirstOwned, OutcomeOf, NewStatus, OwnJobs.OwnJob, FlightsOk;
    var o := w.objects[n];
    forall items | Lists(items, w.jobs)
      ensures
        var out := OutcomeOf(p, o, w.jobs, OwnJobs.OwnJob(w.jobs, o.uid), w.now, a);
        var v := Run(p, w, Script(n, a, items));
        && v.jobs == out.jobs
        && v.objects == w.objects[n := Written(w, o, out.result, a)]
        && v.nextVersion == (if a.written.TakesEffect() then w.nextVersion + 1 else w.nextVersion)
        && v.now == w.now
        && (a.written.TakesEffect() ==> |v.log| > 0 && v.log[|v.log| - 1] == Landed(o, out.result))
    {
      ReconcileIsAtomic(p, w, n, a, items);
      OwnJobs.FoundIsOwn(w, items, o.uid);
    }
  }

  lemma AbsentForAll(p: Params, w: World, n: string, a: Answers)
    requires n !in w.objects && n !in w.flights
    ensures forall items | Lists(items, w.jobs) :: Run(p, w, Script(n, a, items)) == w
  {
    hide Run, Script, Lists;
    forall items | Lists(items, w.jobs)
      ensures Run(p, w, Script(n, a, items)) == w
    {
      AbsentIsLeftAlone(p, w, n, a, items);
    }
  }

  lemma WithoutChecks(p: Params, spec: Spec, a: Answers)
    ensures spec.checks.None? ==> PreChecksResult(p, spec, a).ready
  {
  }

  /** What a reconcile of this object has to say leaves nothing to come back for exactly for these reasons. */
  lemma ComesBackUnless(p: Params, w: World, n: string, a: Answers)
    requires StoreInv(w) && n in w.objects
    ensures
      var o := w.objects[n];
      var m := "dbupgrade-" + o.name + "-" + p.hash(o.spec);
      OutcomeOf(p, o, w.jobs, OwnJobs.OwnJob(w.jobs, o.uid), w.now, a).result.requeueAfter <= 0 <==>
        || ((o.spec.database.kind == AwsRds || o.spec.database.kind == AwsAurora) && o.spec.database.aws == None)
        || (&& ReachesJobs(o.spec, a) && m in w.jobs && o.uid in w.jobs[m].owners
            && if JobCondition(JobCompleteCondition, ConditionTrue) in w.jobs[m].status.conditions then
                 || PostGatesOpen(p, o.spec, CompletedAt(o, w.jobs[m], w.now), w.now, a)
                 || BakeOverflows(p, o.spec, CompletedAt(o, w.jobs[m], w.now), w.now, a)
               else JobCondition(JobFailedCondition, ConditionTrue) in w.jobs[m].status.conditions)
  {
    hide OutcomeOf, OwnJobs.OwnJob, StoreInv, PostGatesOpen, BakeOverflows, CompletedAt, EarlyResult;
    var o := w.objects[n];
    var own := OwnJobs.OwnJob(w.jobs, o.uid);
    EarlyMeaning(o.spec, a);
    if EarlyResult(o.spec, a).Some? {
      EarlyOutcome(p, o, w.jobs, own, w.now, a);
    } else {
      OutcomeMeaning(p, o, w.jobs, own, w.now, a);
      PreChecksMeaning(p, o.spec, a);
      OwnJobHere(w, n);
      if own.Some? {
        SyncComesBack(p, o, own.value, w.now, a);
        ConditionsDecide(own.value);
      }
    }
  }

  lemma EarlyOutcome(p: Params, o: DBUpgrade, jobs: map<string, Job>, found: Option<Job>, now: Time, a: Answers)
    requires EarlyResult(o.spec, a).Some?
    ensures OutcomeOf(p, o, jobs, found, now, a).result == EarlyResult(o.spec, a).value
    ensures !ReachesJobs(o.spec, a)
  {
  }

  /** The own Job of an object, by its name. */
  lemma OwnJobHere(w: World, n: string)
    requires StoreInv(w) && n in w.objects
    ensures
      var uid := w.objects[n].uid;
      match OwnJobs.OwnJob(w.jobs, uid)
      case None => forall m | m in w.jobs :: uid !in w.jobs[m].owners
      case Some(j) =>
        && j.name in w.jobs && w.jobs[j.name] == j && uid in j.owners
        && forall m | m in w.jobs && uid in w.jobs[m].owners :: m == j.name
  {
    hide FlightsOk, NamedFor;
  }

  lemma SyncUnfolds(p: Params, o: DBUpgrade, j: Job, now: Time, a: Answers)
    ensures IsSucceeded(j) ==>
      var completedAt := CompletedAt(o, j, now);
      var post := PostChecksResult(p, o.spec, completedAt, now, a);
      SyncResult(p, o, j, now, a) ==
        if !post.ready then post.(jobCompletedAt := Some(completedAt))
        else ReconcileResult(true, MigrationComplete, false, MigrationComplete, 0, Some(completedAt))
  {
  }

  /** An object that is not there is left alone. */
  lemma AbsentIsLeftAlone(p: Params, w: World, n: string, a: Answers, items: seq<Job>)
    requires n !in w.objects && n !in w.flights
    ensures Run(p, w, Script(n, a, items)) == w
  {
    hide Run, Script, Step;
    ScriptIsWhole(p, w, n, a, items);
    WholeUnfolds(p, w, n, a, items);
  }
}
