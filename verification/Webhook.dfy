/** The admission webhook (api/v1alpha1/dbupgrade_webhook.go). */
module Webhook {
  import opened Types
  import opened Semver
  import opened Conditions

  /** Why a spec is not admitted, or a field that an update may not change. */
  datatype Rejection =
    | NoTarget
    | MissingAwsField
    | SelfHostedWithoutConnection
    | SelfHostedWithAws
    | IncompleteSecretRef
    | BadMinVersion
    | TargetMismatch
    | ZeroThreshold
    | MigrationInProgressRejection
    | ImmutableField(field: Field)

  datatype Field =
    | DatabaseKind
    | ConnectionPresence
    | SecretRef
    | AwsPresence
    | RoleArn
    | Region
    | Host
    | Port
    | DbName
    | Username

  // ---------- Validation of one object ----------

  function FirstOf(a: Option<Rejection>, b: Option<Rejection>): Option<Rejection> {
    if a.Some? then a else b
  }

  /** validateDatabase. A database type outside the enumeration is not looked at. */
  function ValidateDatabase(db: Database): Option<Rejection> {
    var byKind :=
      match db.kind
      case AwsRds => ValidateAws(db)
      case AwsAurora => ValidateAws(db)
      case SelfHosted =>
        if db.connection.None? then Some(SelfHostedWithoutConnection)
        else if db.aws.Some? then Some(SelfHostedWithAws)
        else None
      case OtherDatabase(_) => None;
    FirstOf(byKind, if db.connection.Some? then ValidateConnection(db.connection.value) else None)
  }

  function ValidateAws(db: Database): Option<Rejection> {
    if db.aws.None? && db.connection.None? then Some(NoTarget)
    else if db.aws.None? then None
    else
      var aws := db.aws.value;
      if aws.roleArn == "" || aws.region == "" || aws.host == "" || aws.dbName == "" || aws.username == ""
      then Some(MissingAwsField) else None
  }

  function ValidateConnection(c: Connection): Option<Rejection> {
    if c.urlSecretRef.None? || c.urlSecretRef.value.name == "" || c.urlSecretRef.value.key == ""
    then Some(IncompleteSecretRef) else None
  }

  /** validateMinPodVersions */
  function ValidateMinPodVersions(parse: Parser, checks: seq<MinPodVersionCheck>): Option<Rejection> {
    if checks == [] then None
    else if parse(TrimV(checks[0].minVersion)).None? then Some(BadMinVersion)
    else ValidateMinPodVersions(parse, checks[1..])
  }

  /** validateMetricCheck */
  function ValidateMetricCheck(m: MetricCheck): Option<Rejection> {
    var t := m.target;
    var fits :=
      match t.kind
      case PodsTarget => t.pods.Some? && t.object_.None? && t.external.None?
      case ObjectTarget => t.object_.Some? && t.pods.None? && t.external.None?
      case ExternalTarget => t.pods.None? && t.object_.None?
      case OtherTarget(_) => true;
    if !fits then Some(TargetMismatch)
    else if m.threshold.value == 0.0 then Some(ZeroThreshold)
    else None
  }

  function ValidateMetrics(checks: seq<MetricCheck>): Option<Rejection> {
    if checks == [] then None else FirstOf(ValidateMetricCheck(checks[0]), ValidateMetrics(checks[1..]))
  }

  /** validateDBUpgrade gathers the errors of its parts. */
  function ValidateSpec(parse: Parser, spec: Spec): seq<Rejection> {
    Gathered(ValidateDatabase(spec.database)) +
    match spec.checks
    case None => []
    case Some(checks) =>
      Gathered(ValidateMinPodVersions(parse, checks.pre.minPodVersions)) +
      Gathered(FirstOf(ValidateMetrics(checks.pre.metrics), ValidateMetrics(checks.postMetrics)))
  }

  function Gathered(r: Option<Rejection>): seq<Rejection> {
    if r.Some? then [r.value] else []
  }

  /** ValidateCreate */
  predicate AdmitsCreate(parse: Parser, spec: Spec) {
    ValidateSpec(parse, spec) == []
  }

  // ---------- Validation of an update ----------

  /** validateNotProgressing */
  function ValidateNotProgressing(old_: DBUpgrade, spec: Spec): Option<Rejection> {
    if old_.spec != spec && IsTrue(old_.status.conditions, Progressing) then Some(MigrationInProgressRejection)
    else None
  }

  function SecretRefOf(db: Database): Option<SecretKeyRef> {
    if db.connection.Some? then db.connection.value.urlSecretRef else None
  }

  /** validateImmutableFields: the first field of the database that changed. */
  function ValidateImmutableFields(old_: Database, new_: Database): Option<Field> {
    var oldRef, newRef := SecretRefOf(old_), SecretRefOf(new_);
    if new_.kind != old_.kind then Some(DatabaseKind)
    else if oldRef.Some? != newRef.Some? then Some(ConnectionPresence)
    else if oldRef.Some? && newRef.Some? &&
            (oldRef.value.name != newRef.value.name || oldRef.value.key != newRef.value.key)
    then Some(SecretRef)
    else if old_.aws.Some? != new_.aws.Some? then Some(AwsPresence)
    else if old_.aws.Some? && new_.aws.Some? then ChangedAwsField(old_.aws.value, new_.aws.value)
    else None
  }

  function ChangedAwsField(old_: Aws, new_: Aws): Option<Field> {
    if old_.roleArn != new_.roleArn then Some(RoleArn)
    else if old_.region != new_.region then Some(Region)
    else if old_.host != new_.host then Some(Host)
    else if old_.port != new_.port then Some(Port)
    else if old_.dbName != new_.dbName then Some(DbName)
    else if old_.username != new_.username then Some(Username)
    else None
  }

  /** ValidateUpdate */
  function ValidateUpdate(parse: Parser, old_: DBUpgrade, spec: Spec): seq<Rejection> {
    var progressing := ValidateNotProgressing(old_, spec);
    if progressing.Some? then [progressing.value]
    else
      var changed := ValidateImmutableFields(old_.spec.database, spec.database);
      if changed.Some? then [ImmutableField(changed.value)] else ValidateSpec(parse, spec)
  }

  predicate AdmitsUpdate(parse: Parser, old_: DBUpgrade, spec: Spec) {
    ValidateUpdate(parse, old_, spec) == []
  }

  // ---------- What admission promises ----------

  /** What a DBUpgrade migrates: everything that locates the database, and nothing else of its spec. The
      optional flag of a secret reference is not part of it. */
  datatype Target = Target(kind: DatabaseType, secret: Option<(string, string)>, aws: Option<Aws>)

  function TargetOf(db: Database): Target {
    var ref := SecretRefOf(db);
    Target(db.kind, if ref.Some? then Some((ref.value.name, ref.value.key)) else None, db.aws)
  }

  /** The immutability check accepts an update exactly when it leaves the target alone. */
  lemma ImmutableIffSameTarget(old_: Database, new_: Database)
    ensures ValidateImmutableFields(old_, new_).None? <==> TargetOf(old_) == TargetOf(new_)
    ensures ValidateImmutableFields(old_, new_).None? <==>
      && new_.kind == old_.kind && new_.aws == old_.aws
      && var oldRef, newRef :=
           if old_.connection.Some? then old_.connection.value.urlSecretRef else None,
           if new_.connection.Some? then new_.connection.value.urlSecretRef else None;
         && (newRef.Some? <==> oldRef.Some?)
         && (oldRef.Some? && newRef.Some? ==>
               newRef.value.name == oldRef.value.name && newRef.value.key == oldRef.value.key)
  {
    var oldRef, newRef := SecretRefOf(old_), SecretRefOf(new_);
    if TargetOf(old_) == TargetOf(new_) && oldRef.Some? {
      assert (oldRef.value.name, oldRef.value.key) == (newRef.value.name, newRef.value.key);
    }
  }

  /** A metric check that can be evaluated: the target is the one its type names, alone, and the
      threshold is not zero. */
  predicate SoundMetric(m: MetricCheck) {
    && (m.target.kind.PodsTarget? ==>
          m.target == MetricTarget(PodsTarget, Some(m.target.pods.GetOr(Selector(""))), None, None))
    && (m.target.kind.ObjectTarget? ==>
          m.target == MetricTarget(ObjectTarget, None, Some(m.target.object_.GetOr(Selector(""))), None))
    && (m.target.kind.ExternalTarget? ==> m.target == MetricTarget(ExternalTarget, None, None, m.target.external))
    && m.threshold.value != 0.0
  }

  /** A database that the operator could be pointed at. */
  ghost predicate SoundDatabase(db: Database) {
    && (db.kind.SelfHosted? ==> db.connection.Some? && db.aws.None?)
    && (db.kind.AwsRds? || db.kind.AwsAurora? ==>
          && (db.connection.Some? || db.aws.Some?)
          && (db.aws.Some? ==>
                var aws := db.aws.value;
                "" !in [aws.roleArn, aws.region, aws.host, aws.dbName, aws.username]))
    && (db.connection.Some? ==>
          exists ref :: db.connection.value.urlSecretRef == Some(ref) && ref.name != "" && ref.key != "")
  }

  ghost predicate SoundSpec(parse: Parser, spec: Spec) {
    && SoundDatabase(spec.database)
    && (spec.checks.Some? ==>
          && (forall c | c in spec.checks.value.pre.minPodVersions :: parse(TrimV(c.minVersion)).Some?)
          && (forall m | m in spec.checks.value.pre.metrics + spec.checks.value.postMetrics :: SoundMetric(m)))
  }

  lemma DatabaseAdmittedIff(db: Database)
    ensures ValidateDatabase(db).None? <==> SoundDatabase(db)
  {
    if db.aws.Some? {
      var aws := db.aws.value;
      assert "" in [aws.roleArn, aws.region, aws.host, aws.dbName, aws.username] <==>
             aws.roleArn == "" || aws.region == "" || aws.host == "" || aws.dbName == "" || aws.username == "";
    }
  }

  lemma {:induction false} MinVersionsAdmittedIff(parse: Parser, checks: seq<MinPodVersionCheck>)
    ensures ValidateMinPodVersions(parse, checks).None? <==> forall c | c in checks :: parse(TrimV(c.minVersion)).Some?
  {
    if checks != [] {
      MinVersionsAdmittedIff(parse, checks[1..]);
      assert forall c :: c in checks <==> c == checks[0] || c in checks[1..];
    }
  }

  lemma {:induction false} MetricsAdmittedIff(checks: seq<MetricCheck>)
    ensures ValidateMetrics(checks).None? <==> forall m | m in checks :: SoundMetric(m)
  {
    if checks != [] {
      MetricsAdmittedIff(checks[1..]);
      assert ValidateMetricCheck(checks[0]).None? <==> SoundMetric(checks[0]);
      assert forall m :: m in checks <==> m == checks[0] || m in checks[1..];
    }
  }

  /** A spec is admitted exactly when it is sound. */
  lemma AdmittedIffSound(parse: Parser, spec: Spec)
    ensures AdmitsCreate(parse, spec) <==> SoundSpec(parse, spec)
  {
    hide SoundDatabase, SoundMetric, ValidateDatabase;
    DatabaseAdmittedIff(spec.database);
    if spec.checks.Some? {
      var checks := spec.checks.value;
      MinVersionsAdmittedIff(parse, checks.pre.minPodVersions);
      MetricsAdmittedIff(checks.pre.metrics);
      MetricsAdmittedIff(checks.postMetrics);
      var all := checks.pre.metrics + checks.postMetrics;
      assert forall m :: m in all <==> m in checks.pre.metrics || m in checks.postMetrics;
    }
  }

  /** An update is admitted exactly when the new spec is sound, keeps the target, and is no change at all
      while a migration is in progress. */
  lemma UpdateAdmittedIff(parse: Parser, old_: DBUpgrade, spec: Spec)
    ensures AdmitsUpdate(parse, old_, spec) <==>
      && SoundSpec(parse, spec)
      && TargetOf(spec.database) == TargetOf(old_.spec.database)
      && (IsTrue(old_.status.conditions, Progressing) ==> spec == old_.spec)
  {
    hide SoundSpec, ValidateSpec, TargetOf, ValidateImmutableFields;
    AdmittedIffSound(parse, spec);
    ImmutableIffSameTarget(old_.spec.database, spec.database);
  }

  /** Why an update is refused: first of all because a migration is in progress, then because of the field that
      moves the target, and only then because of what is unsound. */
  lemma RefusedBecause(parse: Parser, old_: DBUpgrade, spec: Spec)
    ensures
      var moved := ValidateUpdate(parse, old_, spec);
      var o, n := old_.spec.database, spec.database;
      if spec != old_.spec && IsTrue(old_.status.conditions, Progressing) then moved == [MigrationInProgressRejection]
      else if n.kind != o.kind then moved == [ImmutableField(DatabaseKind)]
      else if SecretRefOf(n).Some? != SecretRefOf(o).Some? then moved == [ImmutableField(ConnectionPresence)]
      else if TargetOf(n).secret != TargetOf(o).secret then moved == [ImmutableField(SecretRef)]
      else if n.aws.Some? != o.aws.Some? then moved == [ImmutableField(AwsPresence)]
      else if n.aws != o.aws then |moved| == 1 && moved[0].ImmutableField? && moved[0].field in AWS_FIELDS
      else moved == ValidateSpec(parse, spec)
  {
    hide ValidateSpec;
    if SecretRefOf(spec.database).Some? && SecretRefOf(old_.spec.database).Some? {
      var oldRef, newRef := SecretRefOf(old_.spec.database).value, SecretRefOf(spec.database).value;
      assert (oldRef.name, oldRef.key) == (newRef.name, newRef.key) <==>
             oldRef.name == newRef.name && oldRef.key == newRef.key;
    }
  }

  const AWS_FIELDS: set<Field> := {RoleArn, Region, Host, Port, DbName, Username}

  /** What is said to be unsound is. */
  lemma UnsoundBecause(parse: Parser, spec: Spec)
    ensures BadMinVersion in ValidateSpec(parse, spec) <==>
      spec.checks.Some? && exists c :: c in spec.checks.value.pre.minPodVersions && parse(TrimV(c.minVersion)).None?
    ensures TargetMismatch in ValidateSpec(parse, spec) || ZeroThreshold in ValidateSpec(parse, spec) <==>
      spec.checks.Some? &&
      exists m :: m in spec.checks.value.pre.metrics + spec.checks.value.postMetrics && !SoundMetric(m)
  {
    hide SoundMetric;
    DatabaseReasons(spec.database);
    hide ValidateDatabase;
    if spec.checks.Some? {
      var checks := spec.checks.value;
      MinVersionsAdmittedIff(parse, checks.pre.minPodVersions);
      MinVersionReasons(parse, checks.pre.minPodVersions);
      MetricsAdmittedIff(checks.pre.metrics);
      MetricsAdmittedIff(checks.postMetrics);
      MetricReasons(checks.pre.metrics);
      MetricReasons(checks.postMetrics);
      var all := checks.pre.metrics + checks.postMetrics;
      assert forall m :: m in all <==> m in checks.pre.metrics || m in checks.postMetrics;
    }
  }

  lemma DatabaseReasons(db: Database)
    ensures ValidateDatabase(db).Some? ==>
      ValidateDatabase(db).value != BadMinVersion && ValidateDatabase(db).value != TargetMismatch &&
      ValidateDatabase(db).value != ZeroThreshold
  {
  }

  lemma {:induction false} MinVersionReasons(parse: Parser, checks: seq<MinPodVersionCheck>)
    ensures ValidateMinPodVersions(parse, checks).Some? ==> ValidateMinPodVersions(parse, checks).value == BadMinVersion
  {
    if checks != [] {
      MinVersionReasons(parse, checks[1..]);
    }
  }

  lemma {:induction false} MetricReasons(checks: seq<MetricCheck>)
    ensures ValidateMetrics(checks).Some? ==> ValidateMetrics(checks).value in {TargetMismatch, ZeroThreshold}
  {
    if checks != [] {
      MetricReasons(checks[1..]);
    }
  }

  /** The documentation's example of a post-check, a value above zero, is not admitted. */
  lemma ZeroThresholdIsRejected(parse: Parser, spec: Spec, m: MetricCheck)
    requires spec.checks.Some? && m in spec.checks.value.pre.metrics + spec.checks.value.postMetrics
    requires m.threshold == Threshold(GT, 0.0)
    ensures !AdmitsCreate(parse, spec)
  {
    AdmittedIffSound(parse, spec);
  }
}
