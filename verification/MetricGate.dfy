/** The metric gate: reducing the values of a metric and comparing them with a threshold
    (internal/checks/metrics.go). Values are exact numbers. */
module MetricGate {
  import opened Types

  /** What the metrics API answers for a check, in thousandths: the custom metrics API by pods or by
      object, the external metrics API by selector. An invalid selector is an error too. */
  datatype MetricsApi = MetricsApi(
    pods: MetricCheck -> Result<seq<int>>,
    object_: MetricCheck -> Result<int>,
    external: MetricCheck -> Result<seq<int>>)

  // ---------- The declarative meaning ----------

  function Total(values: seq<real>): real {
    if values == [] then 0.0 else Total(values[..|values| - 1]) + values[|values| - 1]
  }

  ghost predicate IsLeast(r: real, values: seq<real>) {
    r in values && forall v | v in values :: r <= v
  }

  ghost predicate IsGreatest(r: real, values: seq<real>) {
    r in values && forall v | v in values :: v <= r
  }

  /** What reducing at least one value means. Anything but Min, Sum and Avg is a maximum. */
  ghost predicate IsReduction(values: seq<real>, reduce: Reduce, r: real) {
    match reduce
    case Min => IsLeast(r, values)
    case Sum => r == Total(values)
    case Avg => r * |values| as real == Total(values)
    case Max => IsGreatest(r, values)
    case DefaultReduce => IsGreatest(r, values)
    case OtherReduce(_) => IsGreatest(r, values)
  }

  /** compareThreshold. */
  predicate Satisfies(value: real, threshold: Threshold) {
    match threshold.operator
    case GT => value > threshold.value
    case GTE => value >= threshold.value
    case LT => value < threshold.value
    case LTE => value <= threshold.value
    case OtherOperator(_) => false
  }

  function Thousandth(milli: int): real {
    milli as real / 1000.0
  }

  function Thousandths(milli: seq<int>): (values: seq<real>)
    ensures |values| == |milli|
    ensures forall i | 0 <= i < |milli| :: values[i] == Thousandth(milli[i])
  {
    seq(|milli|, i requires 0 <= i < |milli| => Thousandth(milli[i]))
  }

  /** The values that a check is about, or an error: an unknown source, a target that does not fit the
      source, or a failed query. */
  function ValuesOf(api: MetricsApi, check: MetricCheck): Result<seq<real>> {
    match check.source
    case OtherSource(_) => Err
    case External => Scaled(api.external(check))
    case Custom => CustomValues(api, check)
    case DefaultSource => CustomValues(api, check)
  }

  function CustomValues(api: MetricsApi, check: MetricCheck): Result<seq<real>> {
    match check.target.kind
    case PodsTarget => if check.target.pods.None? then Err else Scaled(api.pods(check))
    case ObjectTarget =>
      if check.target.object_.None? then Err
      else
        var answer := api.object_(check);
        if answer.Err? then Err else Ok([Thousandth(answer.value)])
    case ExternalTarget => Err
    case OtherTarget(_) => Err
  }

  function Scaled(answer: Result<seq<int>>): Result<seq<real>> {
    if answer.Err? then Err else Ok(Thousandths(answer.value))
  }

  /** The gate of one check is open: its values were obtained, there is at least one, and what they
      reduce to satisfies the threshold. */
  ghost predicate MetricOpen(api: MetricsApi, check: MetricCheck) {
    var values := ValuesOf(api, check);
    values.Ok? && values.value != [] &&
    exists r :: IsReduction(values.value, check.reduce, r) && Satisfies(r, check.threshold)
  }

  /** The verdict on one check, and on a list of checks: that of the first one that is not passed. */
  ghost function Verdict(api: MetricsApi, check: MetricCheck): Result<bool> {
    if ValuesOf(api, check).Err? then Err else Ok(MetricOpen(api, check))
  }

  ghost function VerdictOnAll(api: MetricsApi, checks: seq<MetricCheck>): Result<bool> {
    if checks == [] then Ok(true)
    else
      var first := Verdict(api, checks[0]);
      if first == Ok(true) then VerdictOnAll(api, checks[1..]) else first
  }

  // ---------- The loops ----------

  /** reduceValues. No values at all reduce to zero, which checkSingleMetric never asks for. */
  method ReduceValues(values: seq<real>, reduce: Reduce) returns (r: real)
    ensures values == [] ==> r == 0.0
    ensures values != [] ==> IsReduction(values, reduce, r)
  {
    if |values| == 0 {
      return 0.0;
    }
    match reduce
    case Min =>
      r := values[0];
      for i := 1 to |values|
        invariant IsLeast(r, values[..i])
      {
        if values[i] < r {
          r := values[i];
        }
        assert values[..i + 1] == values[..i] + [values[i]];
      }
      assert values[..|values|] == values;
    case Sum =>
      r := SumValues(values);
    case Avg =>
      var sum := SumValues(values);
      r := sum / |values| as real;
    case Max =>
      r := MaxValue(values);
    case DefaultReduce =>
      r := MaxValue(values);
    case OtherReduce(_) =>
      r := MaxValue(values);
  }

  method SumValues(values: seq<real>) returns (sum: real)
    ensures sum == Total(values)
  {
    sum := 0.0;
    for i := 0 to |values|
      invariant sum == Total(values[..i])
    {
      assert values[..i + 1][..i] == values[..i];
      sum := sum + values[i];
    }
    assert values[..|values|] == values;
  }

  method MaxValue(values: seq<real>) returns (max: real)
    requires values != []
    ensures IsGreatest(max, values)
  {
    max := values[0];
    for i := 1 to |values|
      invariant IsGreatest(max, values[..i])
    {
      if values[i] > max {
        max := values[i];
      }
      assert values[..i + 1] == values[..i] + [values[i]];
    }
    assert values[..|values|] == values;
  }

  /** checkSingleMetric. It asks the API that the source and the target name, and compares what it answers, in
      thousandths, with the threshold: all of it if the values are reduced to the side of the threshold that
      counts, and some of it otherwise. */
  method CheckSingleMetric(api: MetricsApi, check: MetricCheck) returns (r: Result<bool>, ghost milli: Option<seq<int>>)
    ensures r == Verdict(api, check)
    ensures milli ==
      match check.source {
        case OtherSource(_) => None
        case External => (match api.external(check) case Ok(m) => Some(m) case Err => None)
        case _ =>
          match check.target.kind {
            case PodsTarget =>
              if check.target.pods.None? then None else (match api.pods(check) case Ok(m) => Some(m) case Err => None)
            case ObjectTarget =>
              if check.target.object_.None? then None
              else (match api.object_(check) case Ok(m) => Some([m]) case Err => None)
            case _ => None
          }
      }
    ensures r.Err? <==> milli.None?
    ensures milli == Some([]) ==> r == Ok(false)
    ensures milli.Some? && milli.value != [] && !check.reduce.Min? && !check.reduce.Sum? && !check.reduce.Avg? ==>
      var limit := 1000.0 * check.threshold.value;
      r.value <==>
        match check.threshold.operator
        case LT => forall m | m in milli.value :: m as real < limit
        case LTE => forall m | m in milli.value :: m as real <= limit
        case GT => exists m | m in milli.value :: m as real > limit
        case GTE => exists m | m in milli.value :: m as real >= limit
        case OtherOperator(_) => false
    ensures milli.Some? && milli.value != [] && check.reduce.Min? ==>
      var limit := 1000.0 * check.threshold.value;
      r.value <==>
        match check.threshold.operator
        case LT => exists m | m in milli.value :: m as real < limit
        case LTE => exists m | m in milli.value :: m as real <= limit
        case GT => forall m | m in milli.value :: m as real > limit
        case GTE => forall m | m in milli.value :: m as real >= limit
        case OtherOperator(_) => false
    ensures milli.Some? && milli.value != [] && (check.reduce.Sum? || check.reduce.Avg?) ==>
      var limit := check.threshold.value * (if check.reduce.Sum? then 1.0 else |milli.value| as real);
      r.value <==>
        match check.threshold.operator
        case LT => Total(Thousandths(milli.value)) < limit
        case LTE => Total(Thousandths(milli.value)) <= limit
        case GT => Total(Thousandths(milli.value)) > limit
        case GTE => Total(Thousandths(milli.value)) >= limit
        case OtherOperator(_) => false
  {
    hide IsReduction, Satisfies, Total;
    var values := ValuesOf(api, check);
    milli := MilliOf(api, check);
    if values.Err? {
      return Err, milli;
    }
    if |values.value| == 0 {
      return Ok(false), milli;
    }
    var reduced := ReduceValues(values.value, check.reduce);
    forall other | IsReduction(values.value, check.reduce, other)
      ensures other == reduced
    {
      ReductionIsUnique(values.value, check.reduce, reduced, other);
    }
    if check.reduce.Min? {
      LeastInThousandths(milli.value, check.reduce, reduced, check.threshold);
    } else if check.reduce.Sum? || check.reduce.Avg? {
      TotalInThousandths(milli.value, check.reduce, reduced, check.threshold);
    } else {
      GreatestInThousandths(milli.value, check.reduce, reduced, check.threshold);
    }
    r := Ok(Satisfies(reduced, check.threshold));
  }

  /** The values in thousandths, as the API answers them. */
  function MilliOf(api: MetricsApi, check: MetricCheck): (milli: Option<seq<int>>)
    ensures ValuesOf(api, check) == if milli.Some? then Ok(Thousandths(milli.value)) else Err
  {
    match check.source
    case OtherSource(_) => None
    case External => ToOption(api.external(check))
    case _ =>
      match check.target.kind
      case PodsTarget => if check.target.pods.None? then None else ToOption(api.pods(check))
      case ObjectTarget =>
        if check.target.object_.None? || api.object_(check).Err? then None
        else
          assert Thousandths([api.object_(check).value]) == [Thousandth(api.object_(check).value)];
          Some([api.object_(check).value])
      case _ => None
  }

  function ToOption<T>(r: Result<T>): Option<T> {
    if r.Ok? then Some(r.value) else None
  }

  lemma GreatestInThousandths(milli: seq<int>, reduce: Reduce, r: real, threshold: Threshold)
    requires milli != [] && IsReduction(Thousandths(milli), reduce, r)
    requires !reduce.Min? && !reduce.Sum? && !reduce.Avg?
    ensures
      var limit := 1000.0 * threshold.value;
      Satisfies(r, threshold) <==>
        match threshold.operator
        case LT => forall m | m in milli :: m as real < limit
        case LTE => forall m | m in milli :: m as real <= limit
        case GT => exists m | m in milli :: m as real > limit
        case GTE => exists m | m in milli :: m as real >= limit
        case OtherOperator(_) => false
  {
    InThousandths(milli);
    var i :| 0 <= i < |milli| && Thousandth(milli[i]) == r;
    assert milli[i] in milli;
  }

  lemma LeastInThousandths(milli: seq<int>, reduce: Reduce, r: real, threshold: Threshold)
    requires milli != [] && IsReduction(Thousandths(milli), reduce, r) && reduce.Min?
    ensures
      var limit := 1000.0 * threshold.value;
      Satisfies(r, threshold) <==>
        match threshold.operator
        case LT => exists m | m in milli :: m as real < limit
        case LTE => exists m | m in milli :: m as real <= limit
        case GT => forall m | m in milli :: m as real > limit
        case GTE => forall m | m in milli :: m as real >= limit
        case OtherOperator(_) => false
  {
    InThousandths(milli);
    var i :| 0 <= i < |milli| && Thousandth(milli[i]) == r;
    assert milli[i] in milli;
  }

  lemma TotalInThousandths(milli: seq<int>, reduce: Reduce, r: real, threshold: Threshold)
    requires milli != [] && IsReduction(Thousandths(milli), reduce, r) && (reduce.Sum? || reduce.Avg?)
    ensures
      var limit := threshold.value * (if reduce.Sum? then 1.0 else |milli| as real);
      Satisfies(r, threshold) <==>
        match threshold.operator
        case LT => Total(Thousandths(milli)) < limit
        case LTE => Total(Thousandths(milli)) <= limit
        case GT => Total(Thousandths(milli)) > limit
        case GTE => Total(Thousandths(milli)) >= limit
        case OtherOperator(_) => false
  {
    hide Total;
    if reduce.Avg? {
      var n := |milli| as real;
      SameOrder(r, threshold.value, n);
    }
  }

  lemma SameOrder(r: real, t: real, n: real)
    requires n > 0.0
    ensures r < t <==> r * n < t * n
    ensures r == t <==> r * n == t * n
  {
    assert (t - r) * n > 0.0 <==> t - r > 0.0;
    assert (r - t) * n > 0.0 <==> r - t > 0.0;
  }

  lemma InThousandths(milli: seq<int>)
    ensures forall m :: m in milli ==> Thousandth(m) in Thousandths(milli)
    ensures forall v :: v in Thousandths(milli) ==> exists i :: 0 <= i < |milli| && Thousandth(milli[i]) == v
  {
    forall m | m in milli
      ensures Thousandth(m) in Thousandths(milli)
    {
      var i :| 0 <= i < |milli| && milli[i] == m;
      assert Thousandths(milli)[i] == Thousandth(m);
    }
  }

  /** CheckMetrics: it stops at the first check that fails or cannot be made. */
  method CheckMetrics(api: MetricsApi, checks: seq<MetricCheck>) returns (r: Result<bool>)
    ensures r == VerdictOnAll(api, checks)
  {
    for i := 0 to |checks|
      invariant VerdictOnAll(api, checks) == VerdictOnAll(api, checks[i..])
    {
      var result, milli := CheckSingleMetric(api, checks[i]);
      assert checks[i..][1..] == checks[i + 1..];
      if result.Err? || !result.value {
        return result;
      }
    }
    return Ok(true);
  }

  // ---------- What the gate promises ----------

  lemma ReductionIsUnique(values: seq<real>, reduce: Reduce, r: real, other: real)
    requires values != []
    requires IsReduction(values, reduce, r) && IsReduction(values, reduce, other)
    ensures r == other
  {
    if reduce.Avg? {
      var n := |values| as real;
      assert r == Total(values) / n && other == Total(values) / n;
    }
  }

  /** CheckMetrics passes exactly when every check obtains values without error and passes on them. */
  lemma {:induction false} PassesIffAllOpen(api: MetricsApi, checks: seq<MetricCheck>)
    ensures VerdictOnAll(api, checks) == Ok(true) <==> forall c | c in checks :: MetricOpen(api, c)
  {
    hide ValuesOf, IsReduction, Satisfies;
    if checks != [] {
      PassesIffAllOpen(api, checks[1..]);
      assert Verdict(api, checks[0]) == Ok(true) <==> MetricOpen(api, checks[0]);
      assert forall c :: c in checks <==> c == checks[0] || c in checks[1..];
    }
  }

  /** The first check that is not passed gives the verdict on the list. */
  lemma {:induction false} FirstNotPassedDecides(api: MetricsApi, checks: seq<MetricCheck>, i: nat)
    requires i < |checks| && (forall k | 0 <= k < i :: Verdict(api, checks[k]) == Ok(true))
    requires Verdict(api, checks[i]) != Ok(true)
    ensures VerdictOnAll(api, checks) == Verdict(api, checks[i])
  {
    hide Verdict;
    if i > 0 {
      FirstNotPassedDecides(api, checks[1..], i - 1);
    }
  }

  /** A maximum is below a threshold when all values are, and above it when some value is; dually for a
      minimum. */
  lemma ThresholdMeaning(values: seq<real>, max: real, min: real, t: real)
    requires IsGreatest(max, values) && IsLeast(min, values)
    ensures Satisfies(max, Threshold(LT, t)) <==> forall v | v in values :: v < t
    ensures Satisfies(max, Threshold(LTE, t)) <==> forall v | v in values :: v <= t
    ensures Satisfies(max, Threshold(GT, t)) <==> exists v :: v in values && v > t
    ensures Satisfies(max, Threshold(GTE, t)) <==> exists v :: v in values && v >= t
    ensures Satisfies(min, Threshold(GT, t)) <==> forall v | v in values :: v > t
    ensures Satisfies(min, Threshold(GTE, t)) <==> forall v | v in values :: v >= t
    ensures Satisfies(min, Threshold(LT, t)) <==> exists v :: v in values && v < t
    ensures Satisfies(min, Threshold(LTE, t)) <==> exists v :: v in values && v <= t
  {
    assert max in values && min in values;
  }

  /** The sum is that of the parts: of one value it is that value. */
  lemma {:induction false} TotalOfParts(values: seq<real>, others: seq<real>, v: real)
    ensures Total(values + others) == Total(values) + Total(others)
    ensures Total([v]) == v && Total([]) == 0.0
    decreases |others|
  {
    if others == [] {
      assert values + others == values;
    } else {
      var front := others[..|others| - 1];
      TotalOfParts(values, front, v);
      assert (values + others)[..|values + others| - 1] == values + front;
    }
    assert [v][..0] == [];
  }

  /** The sum lies between the least and the greatest value taken as often as there are values. */
  lemma {:induction false} SumBounds(values: seq<real>, lo: real, hi: real)
    requires forall v | v in values :: lo <= v <= hi
    ensures lo * |values| as real <= Total(values) <= hi * |values| as real
  {
    if values == [] {
      assert |values| as real == 0.0;
    } else {
      var front := values[..|values| - 1];
      assert forall v :: v in front ==> v in values;
      SumBounds(front, lo, hi);
      assert |values| == |front| + 1 && values[|front|] in values;
      OneMoreTime(lo, |front|);
      OneMoreTime(hi, |front|);
    }
  }

  lemma OneMoreTime(x: real, n: nat)
    ensures x * (n + 1) as real == x * n as real + x
  {
    assert (n + 1) as real == n as real + 1.0;
  }

  lemma Quotient(r: real, n: real, lo: real, hi: real)
    requires n > 0.0
    requires lo * n <= r * n <= hi * n
    ensures lo <= r <= hi
  {
    assert (r - lo) * n >= 0.0 && (hi - r) * n >= 0.0;
  }

  /** The average lies between the minimum and the maximum. */
  lemma AverageBounds(values: seq<real>, min: real, avg: real, max: real)
    requires values != []
    requires IsReduction(values, Min, min) && IsReduction(values, Avg, avg) && IsReduction(values, Max, max)
    ensures min <= avg <= max
  {
    SumBounds(values, min, max);
    Quotient(avg, |values| as real, min, max);
  }

  /** The order in which the API lists the values does not matter. */
  lemma OrderIndependent(values: seq<real>, others: seq<real>, reduce: Reduce, r: real)
    requires multiset(values) == multiset(others)
    requires IsReduction(values, reduce, r)
    ensures IsReduction(others, reduce, r)
  {
    SumOfPermutation(values, others);
    assert |values| == |multiset(values)| == |others|;
    assert forall v :: v in values <==> v in multiset(values);
    assert forall v :: v in others <==> v in multiset(others);
  }

  lemma {:induction false} SumWithout(values: seq<real>, i: nat)
    requires i < |values|
    ensures Total(values) == Total(values[..i] + values[i + 1..]) + values[i]
  {
    var rest := values[..i] + values[i + 1..];
    if i == |values| - 1 {
      assert rest == values[..i];
    } else {
      var front := values[..|values| - 1];
      SumWithout(front, i);
      assert rest[..|rest| - 1] == front[..i] + front[i + 1..];
    }
  }

  lemma {:induction false} SumOfPermutation(values: seq<real>, others: seq<real>)
    requires multiset(values) == multiset(others)
    ensures Total(values) == Total(others)
    decreases |values|
  {
    assert |values| == |multiset(values)| == |others|;
    if values != [] {
      var front, last := values[..|values| - 1], values[|values| - 1];
      assert values == front + [last];
      assert last in multiset(others);
      var i :| 0 <= i < |others| && others[i] == last;
      var rest := others[..i] + others[i + 1..];
      assert others == others[..i] + [last] + others[i + 1..];
      assert multiset(front) == multiset(values) - multiset{last};
      assert multiset(rest) == multiset(others) - multiset{last};
      SumOfPermutation(front, rest);
      SumWithout(others, i);
    }
  }
}
