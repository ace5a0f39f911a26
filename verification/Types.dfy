/** The custom resource and the Kubernetes objects that the operator works on, reduced to the
    fields that its decisions read or write. Pointers that may be nil are Options. */
module Types {

  datatype Option<+T> = None | Some(value: T) {
    function GetOr(default: T): T {
      if Some? then value else default
    }
  }

  /** The outcome of a call that may return an error instead of a value. */
  datatype Result<+T> = Ok(value: T) | Err

  /** A point in time or a span of time, in nanoseconds. */
  type Time = int

  const SECOND: int := 1_000_000_000

  type Int32 = x: int | -0x8000_0000 <= x < 0x8000_0000

  /** The eight hexadecimal digits that computeSpecHash keeps. */
  type SpecHash = s: string | |s| == 8 witness "00000000"

  /** UIDs are issued by the API server. Those of DBUpgrade objects are kept apart from all others. */
  datatype Uid = UpgradeUid(serial: nat) | ForeignUid(text: string)

  // ---------- DBUpgrade spec ----------

  datatype DatabaseType = SelfHosted | AwsRds | AwsAurora | OtherDatabase(text: string)

  datatype SecretKeyRef = SecretKeyRef(name: string, key: string, optional: Option<bool>)

  datatype Connection = Connection(urlSecretRef: Option<SecretKeyRef>)

  datatype Aws = Aws(roleArn: string, region: string, host: string, port: Int32, dbName: string, username: string)

  datatype Database = Database(kind: DatabaseType, connection: Option<Connection>, aws: Option<Aws>)

  /** A label selector, or a reference to an object, by whatever identifies it. */
  datatype Selector = Selector(text: string)

  datatype MinPodVersionCheck = MinPodVersionCheck(
    selector: Selector,
    minVersion: string,
    containerName: string,
    strictMode: Option<bool>)

  datatype MetricSource = DefaultSource | Custom | External | OtherSource(text: string)

  datatype TargetType = PodsTarget | ObjectTarget | ExternalTarget | OtherTarget(text: string)

  datatype MetricTarget = MetricTarget(
    kind: TargetType,
    pods: Option<Selector>,
    object_: Option<Selector>,
    external: Option<Selector>)

  datatype Operator = GT | GTE | LT | LTE | OtherOperator(text: string)

  datatype Threshold = Threshold(operator: Operator, value: real)

  datatype Reduce = Min | Sum | Avg | Max | DefaultReduce | OtherReduce(text: string)

  datatype MetricCheck = MetricCheck(
    name: string,
    source: MetricSource,
    metricName: string,
    target: MetricTarget,
    threshold: Threshold,
    reduce: Reduce,
    bakeSeconds: Int32)

  datatype PreChecks = PreChecks(minPodVersions: seq<MinPodVersionCheck>, metrics: seq<MetricCheck>)

  datatype Checks = Checks(pre: PreChecks, postMetrics: seq<MetricCheck>)

  datatype Migrations = Migrations(image: string, dir: string)

  datatype Spec = Spec(
    migrations: Migrations,
    database: Database,
    checks: Option<Checks>,
    activeDeadlineSeconds: Option<int>)

  // ---------- DBUpgrade status ----------

  datatype ConditionStatus = ConditionTrue | ConditionFalse | ConditionUnknown

  datatype ConditionType = Ready | Progressing | OtherCondition(text: string)

  datatype Reason =
    | NoReason
    | Initializing
    | MigrationInProgress
    | MigrationComplete
    | JobFailed
    | JobPending
    | SecretNotFound
    | AWSNotSupported
    | PreCheckImageVersionFailed
    | PreCheckMetricFailed
    | PostCheckFailed
    | PostCheckBakeTimeWaiting

  datatype Condition = Condition(
    kind: ConditionType,
    status: ConditionStatus,
    reason: Reason,
    observedGeneration: int,
    lastTransitionTime: Time)

  datatype Status = Status(
    observedGeneration: int,
    jobCompletedAt: Option<Time>,
    conditions: seq<Condition>)

  const EMPTY_STATUS: Status := Status(0, None, [])

  datatype DBUpgrade = DBUpgrade(
    name: string,
    uid: Uid,
    generation: nat,
    resourceVersion: nat,
    spec: Spec,
    status: Status)

  // ---------- Jobs and Pods ----------

  datatype JobConditionType = JobCompleteCondition | JobFailedCondition | OtherJobCondition(text: string)

  datatype JobCondition = JobCondition(kind: JobConditionType, status: ConditionStatus)

  datatype JobStatus = JobStatus(active: int, conditions: seq<JobCondition>, completionTime: Option<Time>)

  const NEW_JOB_STATUS: JobStatus := JobStatus(0, [], None)

  datatype Job = Job(name: string, owners: seq<Uid>, status: JobStatus)

  datatype Container = Container(name: string, image: string)

  datatype Pod = Pod(name: string, containers: seq<Container>, initContainers: seq<Container>)
}
