/** What one reconcile decides, given what it read and what the API answered
    (controllers/dbupgrade_controller.go). */
module Decision {
  import opened Types
  import opened Semver
  import VersionGate
  import MetricGate

  /** What does not change while the operator runs. */
  datatype Params = Params(
    hash: Spec -> SpecHash,   // computeSpecHash
    parse: Parser,            // the semver library's parser
    restConfig: bool,         // whether metric checks can be made at all
    webhook: bool)            // whether the admission webhook is installed

  /** How a call that changes something fares: it is answered, by success or by a refusal that the operator
      can tell; or it takes effect and the answer is lost; or it fails without effect. The operator cannot tell
      the last two apart. */
  datatype Call = Answered | Lost | Failed {
    predicate TakesEffect() {
      !Failed?
    }
  }

  /** What the API and the cluster answer during one reconcile. */
  datatype Answers = Answers(
    secretReadable: bool,     // the customer's Secret exists and has the key
    secretEnsured: bool,      // the operator's own Secret was read, updated or created
    listed: bool,             // listing the Jobs succeeded
    deleted: Call,            // deleting a Job, answered also if there was nothing to delete
    created: Call,            // creating a Job, answered also by AlreadyExists
    written: Call,            // updating the status, answered also by a conflict
    checkerBuilt: bool,       // the metrics clients could be built
    pods: VersionGate.PodLister,
    metrics: MetricGate.MetricsApi,
    outOfRange: Int32)        // what converting an out-of-range number of seconds to int32 yields

  datatype ReconcileResult = ReconcileResult(
    ready: bool,
    readyReason: Reason,
    progressing: bool,
    progressReason: Reason,
    requeueAfter: int,
    jobCompletedAt: Option<Time>)

  /** Neither ready nor progressing, for one reason. */
  function Stopped(reason: Reason, seconds: int): ReconcileResult {
    ReconcileResult(false, reason, false, reason, seconds * SECOND, None)
  }

  function InProgress(readyReason: Reason, progressReason: Reason, seconds: int): ReconcileResult {
    ReconcileResult(false, readyReason, true, progressReason, seconds * SECOND, None)
  }

  /** The result of the checks when there is nothing to object to. */
  const PASSED: ReconcileResult := ReconcileResult(true, NoReason, false, NoReason, 0, None)

  // ---------- Jobs ----------

  function JobName(name: string, hash: SpecHash): string {
    "dbupgrade-" + name + "-" + hash
  }

  function ExpectedName(p: Params, o: DBUpgrade): string {
    JobName(o.name, p.hash(o.spec))
  }

  predicate IsRunning(j: Job) {
    j.status.active > 0
  }

  predicate IsSucceeded(j: Job) {
    exists c | c in j.status.conditions :: c.kind == JobCompleteCondition && c.status == ConditionTrue
  }

  predicate IsFailed(j: Job) {
    exists c | c in j.status.conditions :: c.kind == JobFailedCondition && c.status == ConditionTrue
  }

  predicate IsFinished(j: Job) {
    IsSucceeded(j) || IsFailed(j)
  }

  /** Two Jobs for different DBUpgrades, or for different hashes, never share a name. */
  lemma JobNameIsInjective(n1: string, h1: SpecHash, n2: string, h2: SpecHash)
    requires JobName(n1, h1) == JobName(n2, h2)
    ensures n1 == n2 && h1 == h2
  {
    var s1, s2 := JobName(n1, h1), JobName(n2, h2);
    assert s1[10..10 + |n1|] == n1 && s2[10..10 + |n2|] == n2;
    assert s1[|s1| - 8..] == h1 && s2[|s2| - 8..] == h2;
  }

  // ---------- Before the Job is looked at ----------

  /** validateSecret */
  predicate SecretIsValid(db: Database, a: Answers) {
    && db.connection.Some?
    && db.connection.value.urlSecretRef.Some?
    && a.secretReadable
  }

  /** The result of a reconcile that ends before the Jobs are listed, or none. */
  function EarlyResult(spec: Spec, a: Answers): Option<ReconcileResult> {
    var db := spec.database;
    if db.kind.SelfHosted? && !SecretIsValid(db, a) then Some(Stopped(SecretNotFound, 30))
    else if (db.kind.AwsRds? || db.kind.AwsAurora?) && db.aws.None? then Some(Stopped(AWSNotSupported, 0))
    else if db.kind.OtherDatabase? || !a.secretEnsured then Some(Stopped(SecretNotFound, 10))
    else None
  }

  /** A reconcile with these answers gets to look at the Jobs. */
  predicate ReachesJobs(spec: Spec, a: Answers) {
    EarlyResult(spec, a).None? && a.listed
  }

  // ---------- Pre-checks ----------

  /** runPreChecks */
  ghost function PreChecksResult(p: Params, spec: Spec, a: Answers): ReconcileResult {
    if spec.checks.None? then PASSED
    else
      var pre := spec.checks.value.pre;
      var versions :=
        if pre.minPodVersions == [] then Ok(true) else VersionGate.VerdictOnAll(p.parse, a.pods, pre.minPodVersions);
      if versions.Err? then Stopped(PreCheckImageVersionFailed, 30)
      else if !versions.value then Stopped(PreCheckImageVersionFailed, 60)
      else if pre.metrics == [] || !p.restConfig then PASSED
      else if !a.checkerBuilt then Stopped(PreCheckMetricFailed, 30)
      else
        var metrics := MetricGate.VerdictOnAll(a.metrics, pre.metrics);
        if metrics.Err? then Stopped(PreCheckMetricFailed, 30)
        else if !metrics.value then Stopped(PreCheckMetricFailed, 60)
        else PASSED
  }

  /** Every pre-check that the operator can make is passed. */
  ghost predicate PreGatesOpen(p: Params, spec: Spec, a: Answers) {
    spec.checks.Some? ==>
      var pre := spec.checks.value.pre;
      && (forall c | c in pre.minPodVersions :: VersionGate.Verdict(p.parse, a.pods, c) == Ok(true))
      && (p.restConfig && pre.metrics != [] ==> a.checkerBuilt)
      && (p.restConfig ==> forall m | m in pre.metrics :: MetricGate.MetricOpen(a.metrics, m))
  }

  /** The pre-checks let a migration start exactly when every one of them is passed; otherwise they say
      when to come back. */
  lemma PreChecksMeaning(p: Params, spec: Spec, a: Answers)
    ensures PreChecksResult(p, spec, a).ready <==> PreGatesOpen(p, spec, a)
    ensures !PreChecksResult(p, spec, a).ready ==>
      !PreChecksResult(p, spec, a).progressing && PreChecksResult(p, spec, a).requeueAfter > 0
  {
    hide VersionGate.Verdict, MetricGate.MetricOpen, MetricGate.Verdict, VersionGate.VerdictOnAll,
         MetricGate.VerdictOnAll;
    if spec.checks.Some? {
      VersionGate.PassesIffAllPass(p.parse, a.pods, spec.checks.value.pre.minPodVersions);
      MetricGate.PassesIffAllOpen(a.metrics, spec.checks.value.pre.metrics);
    }
  }

  // ---------- Bake time ----------

  /** Conversion of an int to int32, and int32 subtraction, wrap around. */
  function Wrap32(x: int): Int32 {
    (x + 0x8000_0000) % 0x1_0000_0000 - 0x8000_0000
  }

  /** Whole seconds in a span of time, toward zero. */
  function Truncate(span: Time): int {
    if span >= 0 then span / SECOND else -((-span) / SECOND)
  }

  predicate InRange(span: Time) {
    -0x8000_0000 <= Truncate(span) < 0x8000_0000
  }

  function ElapsedSeconds(span: Time, outOfRange: Int32): Int32 {
    if InRange(span) then Truncate(span) else outOfRange
  }

  /** The longest bake time asked for, or zero. */
  function MaxBake(checks: seq<MetricCheck>): (max: Int32)
    ensures max >= 0
    ensures forall c | c in checks :: c.bakeSeconds <= max
    ensures max == 0 || exists c :: c in checks && c.bakeSeconds == max
  {
    if checks == [] then 0
    else
      var rest := MaxBake(checks[..|checks| - 1]);
      var last := checks[|checks| - 1];
      assert forall c :: c in checks <==> c in checks[..|checks| - 1] || c == last;
      if last.bakeSeconds > rest then last.bakeSeconds else rest
  }

  /** How many seconds the post-checks still wait, when they do. */
  function BakeWait(max: Int32, span: Time, outOfRange: Int32): Option<Int32> {
    var elapsed := ElapsedSeconds(span, outOfRange);
    if max > 0 && elapsed < max then Some(Wrap32(max - elapsed)) else None
  }

  // ---------- Post-checks ----------

  /** runPostChecks */
  ghost function PostChecksResult(p: Params, spec: Spec, completedAt: Time, now: Time, a: Answers): ReconcileResult {
    if spec.checks.None? || spec.checks.value.postMetrics == [] || !p.restConfig then PASSED
    else
      var metrics := spec.checks.value.postMetrics;
      var wait := BakeWait(MaxBake(metrics), now - completedAt, a.outOfRange);
      if wait.Some? then InProgress(PostCheckBakeTimeWaiting, PostCheckBakeTimeWaiting, wait.value)
      else if !a.checkerBuilt then Stopped(PostCheckFailed, 30)
      else
        var verdict := MetricGate.VerdictOnAll(a.metrics, metrics);
        if verdict.Err? then Stopped(PostCheckFailed, 30)
        else if !verdict.value then Stopped(PostCheckFailed, 60)
        else PASSED
  }

  /** Every bake time is over and every post-check that the operator can make is passed. */
  ghost predicate PostGatesOpen(p: Params, spec: Spec, completedAt: Time, now: Time, a: Answers) {
    spec.checks.Some? && p.restConfig && spec.checks.value.postMetrics != [] ==>
      var metrics := spec.checks.value.postMetrics;
      && BakeWait(MaxBake(metrics), now - completedAt, a.outOfRange).None?
      && a.checkerBuilt
      && (forall m | m in metrics :: MetricGate.MetricOpen(a.metrics, m))
  }

  lemma PostChecksMeaning(p: Params, spec: Spec, completedAt: Time, now: Time, a: Answers)
    ensures PostChecksResult(p, spec, completedAt, now, a).ready <==> PostGatesOpen(p, spec, completedAt, now, a)
  {
    hide MetricGate.MetricOpen, MetricGate.VerdictOnAll, BakeWait;
    if spec.checks.Some? {
      MetricGate.PassesIffAllOpen(a.metrics, spec.checks.value.postMetrics);
    }
  }

  // ---------- Reading a Job off into a result ----------

  /** When the Job completed: as the Job says, or as the status remembers, or now. */
  function CompletedAt(o: DBUpgrade, j: Job, now: Time): Time {
    j.status.completionTime.GetOr(o.status.jobCompletedAt.GetOr(now))
  }

  /** syncJobStatus */
  ghost function SyncResult(p: Params, o: DBUpgrade, j: Job, now: Time, a: Answers): ReconcileResult {
    if IsSucceeded(j) then
      var completedAt := CompletedAt(o, j, now);
      var post := PostChecksResult(p, o.spec, completedAt, now, a);
      if !post.ready then post.(jobCompletedAt := Some(completedAt))
      else ReconcileResult(true, MigrationComplete, false, MigrationComplete, 0, Some(completedAt))
    else if IsFailed(j) then Stopped(JobFailed, 0)
    else if IsRunning(j) then InProgress(Initializing, MigrationInProgress, 10)
    else InProgress(Initializing, JobPending, 5)
  }

  // ---------- What a decision promises ----------

  /** The gate never opens early: once it is open, every single bake time has passed. */
  lemma BakeIsNeverShort(checks: seq<MetricCheck>, span: Time, outOfRange: Int32)
    requires InRange(span)
    requires BakeWait(MaxBake(checks), span, outOfRange).None?
    ensures forall c | c in checks && c.bakeSeconds > 0 :: span >= c.bakeSeconds * SECOND
  {
    forall c | c in checks && c.bakeSeconds > 0
      ensures span >= c.bakeSeconds * SECOND
    {
      assert Truncate(span) >= MaxBake(checks) >= c.bakeSeconds;
    }
  }

  /** The wait is at least a second and ends less than a second late. It is exact: the first reconcile
      after it finds the gate open, exactly when the completion time is not in the future or is a whole
      number of seconds away. */
  lemma BakeIsOneWait(max: Int32, span: Time, later: Time, outOfRange: Int32)
    requires max > 0 && InRange(span) && Truncate(span) < max
    requires max - Truncate(span) < 0x8000_0000
    ensures BakeWait(max, span, outOfRange) == Some(max - Truncate(span))
    ensures
      var after := span + (max - Truncate(span)) * SECOND;
      && max - Truncate(span) >= 1
      && after < (max + 1) * SECOND
      && (after >= max * SECOND <==> span >= 0 || span % SECOND == 0)
      && (after >= max * SECOND && after <= later && InRange(later) ==> BakeWait(max, later, outOfRange).None?)
      && (after < max * SECOND ==> BakeWait(max, after, outOfRange) == Some(1))
  {
    var t := Truncate(span);
    var after := span + (max - t) * SECOND;
    if span >= 0 {
      assert t * SECOND <= span < (t + 1) * SECOND;
    } else {
      assert -span == (-t) * SECOND + (-span) % SECOND;
    }
    if after >= max * SECOND && after <= later && InRange(later) {
      assert later / SECOND >= max;
    }
  }

  /** There are post-checks to make after the migration. */
  predicate HasPostGates(p: Params, spec: Spec) {
    p.restConfig && spec.checks.Some? && spec.checks.value.postMetrics != []
  }

  function PostMaxBake(spec: Spec): Int32
    requires spec.checks.Some?
  {
    MaxBake(spec.checks.value.postMetrics)
  }

  /** What is left of the bake time does not fit an int32. */
  predicate BakeOverflows(p: Params, spec: Spec, completedAt: Time, now: Time, a: Answers) {
    && HasPostGates(p, spec)
    && PostMaxBake(spec) > 0
    && PostMaxBake(spec) - ElapsedSeconds(now - completedAt, a.outOfRange) >= 0x8000_0000
  }

  /** The wait wraps around to a negative one exactly when the completion time is so many whole seconds ahead
      that these and the bake time together reach two to the power of 31. */
  lemma OverflowIff(max: Int32, span: Time, outOfRange: Int32)
    requires max > 0 && InRange(span)
    ensures
      var wait := BakeWait(max, span, outOfRange);
      wait.Some? && wait.value <= 0 <==> span <= -(0x8000_0000 - max) * SECOND
  {
    var ahead := 0x8000_0000 - max;
    if span < 0 {
      assert -span == ((-span) / SECOND) * SECOND + (-span) % SECOND;
    }
    assert Truncate(span) <= -ahead <==> span <= -ahead * SECOND;
  }

  /** A reconcile that reads a Job off does not come back by itself exactly when the migration is complete
      and every post gate is open, when it failed, or when the wait for the bake time overflows. */
  lemma SyncComesBack(p: Params, o: DBUpgrade, j: Job, now: Time, a: Answers)
    ensures
      var completedAt := CompletedAt(o, j, now);
      SyncResult(p, o, j, now, a).requeueAfter <= 0 <==>
        if IsSucceeded(j) then
          PostGatesOpen(p, o.spec, completedAt, now, a) || BakeOverflows(p, o.spec, completedAt, now, a)
        else IsFailed(j)
  {
    hide IsSucceeded, IsFailed, CompletedAt, PostGatesOpen, MetricGate.VerdictOnAll;
    PostChecksMeaning(p, o.spec, CompletedAt(o, j, now), now, a);
  }

  // ---------- What a decision says, in the words of the status ----------

  /** Before the Jobs are looked at: the reasons and delays, in nanoseconds. */
  lemma EarlyMeaning(spec: Spec, a: Answers)
    ensures
      var db := spec.database;
      var readable := db.connection.Some? && db.connection.value.urlSecretRef.Some? && a.secretReadable;
      EarlyResult(spec, a) ==
        if db.kind == SelfHosted && !readable then
          Some(ReconcileResult(false, SecretNotFound, false, SecretNotFound, 30_000_000_000, None))
        else if (db.kind == AwsRds || db.kind == AwsAurora) && db.aws == None then
          Some(ReconcileResult(false, AWSNotSupported, false, AWSNotSupported, 0, None))
        else if (db.kind != SelfHosted && db.kind != AwsRds && db.kind != AwsAurora) || !a.secretEnsured then
          Some(ReconcileResult(false, SecretNotFound, false, SecretNotFound, 10_000_000_000, None))
        else None
  {
  }

  /** What the pre-checks say when they do not pass: which of them, and when to try again. */
  lemma PreChecksSay(p: Params, spec: Spec, a: Answers)
    requires spec.checks.Some?
    ensures
      var r := PreChecksResult(p, spec, a);
      var pre := spec.checks.value.pre;
      var versions := PreCheckImageVersionFailed;
      match VersionGate.VerdictOnAll(p.parse, a.pods, pre.minPodVersions) {
        case Err =>
          r == ReconcileResult(false, versions, false, versions, 30_000_000_000, None)
        case Ok(passed) =>
          if !passed then
            r == ReconcileResult(false, versions, false, versions, 60_000_000_000, None)
          else if pre.metrics == [] || !p.restConfig then r.ready
          else if !a.checkerBuilt || MetricGate.VerdictOnAll(a.metrics, pre.metrics).Err? then
            r == ReconcileResult(false, PreCheckMetricFailed, false, PreCheckMetricFailed, 30_000_000_000, None)
          else if MetricGate.VerdictOnAll(a.metrics, pre.metrics) == Ok(false) then
            r == ReconcileResult(false, PreCheckMetricFailed, false, PreCheckMetricFailed, 60_000_000_000, None)
          else r.ready
      }
  {
    hide VersionGate.Verdict, MetricGate.Verdict;
  }

  /** What the post-checks say when they do not pass: they wait exactly while some check's own bake time has not
      passed, and otherwise fail, for a time that depends on why. */
  lemma PostChecksSay(p: Params, spec: Spec, completedAt: Time, now: Time, a: Answers)
    requires p.restConfig && spec.checks.Some? && spec.checks.value.postMetrics != [] && InRange(now - completedAt)
    ensures
      var r := PostChecksResult(p, spec, completedAt, now, a);
      var metrics := spec.checks.value.postMetrics;
      var verdict := MetricGate.VerdictOnAll(a.metrics, metrics);
      if exists c | c in metrics :: c.bakeSeconds > 0 && now < completedAt + c.bakeSeconds * 1_000_000_000 then
        r == ReconcileResult(false, PostCheckBakeTimeWaiting, true, PostCheckBakeTimeWaiting, r.requeueAfter, None)
      else if !a.checkerBuilt || verdict.Err? then
        r == ReconcileResult(false, PostCheckFailed, false, PostCheckFailed, 30_000_000_000, None)
      else if verdict == Ok(false) then
        r == ReconcileResult(false, PostCheckFailed, false, PostCheckFailed, 60_000_000_000, None)
      else r.ready
  {
    hide MetricGate.VerdictOnAll, Wrap32;
    BakesWhileShort(spec.checks.value.postMetrics, now - completedAt, a.outOfRange);
  }

  lemma BakesWhileShort(checks: seq<MetricCheck>, span: Time, outOfRange: Int32)
    requires InRange(span)
    ensures BakeWait(MaxBake(checks), span, outOfRange).Some? <==>
            exists c | c in checks :: c.bakeSeconds > 0 && span < c.bakeSeconds * 1_000_000_000
  {
    hide Wrap32;
    var max := MaxBake(checks);
    assert max > 0 ==> (Truncate(span) < max <==> span < max * SECOND);
    if c :| c in checks && c.bakeSeconds > 0 && span < c.bakeSeconds * 1_000_000_000 {
      assert c.bakeSeconds * 1_000_000_000 <= max * SECOND;
    }
  }

  /** What reading a Job off says: only a Job with a true Complete condition is ever ready; one with a true Failed
      condition and no true Complete condition has failed for good; any other progresses, and whether pods are
      active tells how. */
  lemma SyncMeaning(p: Params, o: DBUpgrade, j: Job, now: Time, a: Answers)
    ensures
      var r := SyncResult(p, o, j, now, a);
      var complete := JobCondition(JobCompleteCondition, ConditionTrue) in j.status.conditions;
      var failed := JobCondition(JobFailedCondition, ConditionTrue) in j.status.conditions;
      && (r.ready ==> complete)
      && (r.ready ==> r == ReconcileResult(true, MigrationComplete, false, MigrationComplete, 0, r.jobCompletedAt))
      && (complete && (o.spec.checks.None? || o.spec.checks.value.postMetrics == [] || !p.restConfig) ==> r.ready)
      && (complete && !r.ready ==>
            && (r.readyReason == PostCheckBakeTimeWaiting || r.readyReason == PostCheckFailed)
            && r.progressReason == r.readyReason
            && (r.progressing <==> r.readyReason == PostCheckBakeTimeWaiting))
      && (!complete && failed ==> r == ReconcileResult(false, JobFailed, false, JobFailed, 0, None))
      && (!complete && !failed && j.status.active > 0 ==>
            r == ReconcileResult(false, Initializing, true, MigrationInProgress, 10_000_000_000, None))
      && (!complete && !failed && j.status.active <= 0 ==>
            r == ReconcileResult(false, Initializing, true, JobPending, 5_000_000_000, None))
      && (r.jobCompletedAt.Some? <==> complete)
      && (complete ==>
            r.jobCompletedAt ==
              if j.status.completionTime.Some? then j.status.completionTime
              else if o.status.jobCompletedAt.Some? then o.status.jobCompletedAt
              else Some(now))
  {
    hide IsSucceeded, IsFailed, MetricGate.VerdictOnAll, BakeWait;
    ConditionsDecide(j);
  }

  /** Which conditions of a Job count. */
  lemma ConditionsDecide(j: Job)
    ensures IsSucceeded(j) <==> JobCondition(JobCompleteCondition, ConditionTrue) in j.status.conditions
    ensures IsFailed(j) <==> JobCondition(JobFailedCondition, ConditionTrue) in j.status.conditions
    ensures IsRunning(j) <==> j.status.active > 0
  {
  }
}
