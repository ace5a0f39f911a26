/** The minimum-version gate over the images of running pods (internal/checks/version.go). */
module VersionGate {
  import opened Types
  import opened Semver
  import ImageRef

  datatype PodVersionInfo = PodVersionInfo(podName: string, containerName: string, imageTag: string, version: string)

  datatype VersionCheckResult = VersionCheckResult(
    passed: bool, failedPods: seq<PodVersionInfo>, skippedPods: seq<PodVersionInfo>)

  /** What listing the pods that a check selects answers; an invalid selector is an error too. */
  type PodLister = MinPodVersionCheck -> Result<seq<Pod>>

  // ---------- The declarative meaning ----------

  /** A container of a pod. */
  datatype Subject = Subject(podName: string, container: Container)

  /** How a container stands against a minimum version. */
  datatype Grade = Unversioned(text: string) | Below(text: string) | Reaches(text: string)

  function GradeOf(parse: Parser, minimum: Version, image: string): Grade {
    var text := ImageRef.ExtractVersion(image);
    if text == "" then Unversioned("unknown")
    else
      match parse(TrimV(text))
      case None => Unversioned(text)
      case Some(v) => if LessThan(v, minimum) then Below(text) else Reaches(text)
  }

  /** The containers of one pod that a check looks at, among those given: all of them, or the first
      one with the name that the check asks for. */
  function ConsideredAmong(podName: string, containers: seq<Container>, containerName: string): seq<Subject> {
    if containers == [] then []
    else if containerName == "" then
      [Subject(podName, containers[0])] + ConsideredAmong(podName, containers[1..], containerName)
    else if containers[0].name == containerName then [Subject(podName, containers[0])]
    else ConsideredAmong(podName, containers[1..], containerName)
  }

  /** Regular containers come before init containers. */
  function ConsideredIn(pod: Pod, containerName: string): seq<Subject> {
    ConsideredAmong(pod.name, pod.containers + pod.initContainers, containerName)
  }

  function Considered(pods: seq<Pod>, containerName: string): seq<Subject> {
    if pods == [] then []
    else Considered(pods[..|pods| - 1], containerName) + ConsideredIn(pods[|pods| - 1], containerName)
  }

  function Info(s: Subject, version: string): PodVersionInfo {
    PodVersionInfo(s.podName, s.container.name, s.container.image, version)
  }

  /** Strict is the default. */
  predicate IsStrict(check: MinPodVersionCheck) {
    check.strictMode.GetOr(true)
  }

  /** The three lists that a check builds. */
  datatype Test = Fails(strict: bool) | Skipped(strict: bool) | Checked {
    predicate Holds(grade: Grade) {
      match this
      case Fails(strict) => grade.Below? || (grade.Unversioned? && strict)
      case Skipped(strict) => grade.Unversioned? && !strict
      case Checked => !grade.Unversioned?
    }
  }

  /** The subjects with a grade that satisfies a test, in order, each with the version it was given. */
  function Picked(parse: Parser, minimum: Version, subjects: seq<Subject>, test: Test): seq<PodVersionInfo> {
    if subjects == [] then []
    else
      var rest := Picked(parse, minimum, subjects[..|subjects| - 1], test);
      var last := subjects[|subjects| - 1];
      var grade := GradeOf(parse, minimum, last.container.image);
      if test.Holds(grade) then rest + [Info(last, grade.text)] else rest
  }

  /** The gate is open: some pod matches, no container considered fails, and unless there is none to
      consider, not all of them were skipped. */
  ghost predicate GateOpen(parse: Parser, pods: seq<Pod>, minimum: Version, check: MinPodVersionCheck) {
    var subjects := Considered(pods, check.containerName);
    && pods != []
    && (forall s | s in subjects :: !Fails(IsStrict(check)).Holds(GradeOf(parse, minimum, s.container.image)))
    && (subjects != [] ==>
        exists s :: s in subjects && !Skipped(IsStrict(check)).Holds(GradeOf(parse, minimum, s.container.image)))
  }

  /** The verdict on one check: an error, or whether its gate is open. */
  ghost function Verdict(parse: Parser, list: PodLister, check: MinPodVersionCheck): Result<bool> {
    match list(check)
    case Err => Err
    case Ok(pods) =>
      if pods == [] then Ok(false)
      else
        match parse(TrimV(check.minVersion))
        case None => Err
        case Some(minimum) => Ok(GateOpen(parse, pods, minimum, check))
  }

  /** The verdict on a list of checks: that of the first one that is not passed. */
  ghost function VerdictOnAll(parse: Parser, list: PodLister, checks: seq<MinPodVersionCheck>): Result<bool> {
    if checks == [] then Ok(true)
    else
      var first := Verdict(parse, list, checks[0]);
      if first == Ok(true) then VerdictOnAll(parse, list, checks[1..]) else first
  }

  // ---------- The loops ----------

  /** What a check has gathered: the lists of failed and skipped containers, and how many were compared. */
  datatype Tally = Tally(failedPods: seq<PodVersionInfo>, skippedPods: seq<PodVersionInfo>, checkedCount: nat)

  function TallyOf(parse: Parser, minimum: Version, strict: bool, subjects: seq<Subject>): Tally {
    Tally(Picked(parse, minimum, subjects, Fails(strict)),
          Picked(parse, minimum, subjects, Skipped(strict)),
          |Picked(parse, minimum, subjects, Checked)|)
  }

  /** A tally with one more container graded. */
  function Count(t: Tally, strict: bool, s: Subject, grade: Grade): Tally {
    Tally(t.failedPods + (if Fails(strict).Holds(grade) then [Info(s, grade.text)] else []),
          t.skippedPods + (if Skipped(strict).Holds(grade) then [Info(s, grade.text)] else []),
          t.checkedCount + (if Checked.Holds(grade) then 1 else 0))
  }

  lemma TallyOneMore(parse: Parser, minimum: Version, strict: bool, subjects: seq<Subject>, s: Subject)
    ensures TallyOf(parse, minimum, strict, subjects + [s]) ==
            Count(TallyOf(parse, minimum, strict, subjects), strict, s, GradeOf(parse, minimum, s.container.image))
  {
    hide GradeOf;
    assert (subjects + [s])[..|subjects + [s]| - 1] == subjects;
  }

  /** A test picks nothing exactly when no subject satisfies it. */
  lemma {:induction false} PickedEmpty(parse: Parser, minimum: Version, subjects: seq<Subject>, test: Test)
    ensures Picked(parse, minimum, subjects, test) == [] <==>
            forall s | s in subjects :: !test.Holds(GradeOf(parse, minimum, s.container.image))
  {
    hide GradeOf;
    if subjects != [] {
      var front, last := subjects[..|subjects| - 1], subjects[|subjects| - 1];
      PickedEmpty(parse, minimum, front, test);
      assert forall s :: s in subjects <==> s in front || s == last;
    }
  }

  /** Nothing considered is lost: in strict mode nothing is skipped and whatever has no version fails,
      otherwise every container is either compared or skipped. */
  lemma {:induction false} TallyConserves(parse: Parser, minimum: Version, strict: bool, subjects: seq<Subject>)
    ensures
      var t := TallyOf(parse, minimum, strict, subjects);
      && (strict ==> t.skippedPods == [] && |t.failedPods| + t.checkedCount >= |subjects|)
      && (!strict ==> t.checkedCount + |t.skippedPods| == |subjects| && |t.failedPods| <= t.checkedCount)
  {
    hide GradeOf;
    if subjects != [] {
      TallyConserves(parse, minimum, strict, subjects[..|subjects| - 1]);
    }
  }

  /** The tally decides the gate. */
  lemma TallyDecides(parse: Parser, pods: seq<Pod>, minimum: Version, check: MinPodVersionCheck)
    requires pods != []
    ensures
      var t := TallyOf(parse, minimum, IsStrict(check), Considered(pods, check.containerName));
      GateOpen(parse, pods, minimum, check) <==> t.failedPods == [] && (t.checkedCount > 0 || t.skippedPods == [])
  {
    hide GradeOf;
    var strict := IsStrict(check);
    var subjects := Considered(pods, check.containerName);
    PickedEmpty(parse, minimum, subjects, Fails(strict));
    PickedEmpty(parse, minimum, subjects, Skipped(strict));
    PickedEmpty(parse, minimum, subjects, Checked);
    if subjects != [] {
      assert subjects[0] in subjects;
    }
  }

  /** The body of the loop for one container: it reads the version and files the container. */
  method CheckContainer(parse: Parser, minVersion: Version, strictMode: bool, s: Subject, t: Tally)
    returns (next: Tally)
    ensures next == Count(t, strictMode, s, GradeOf(parse, minVersion, s.container.image))
    ensures
      var text := ImageRef.ExtractVersion(s.container.image);
      var version := if text == "" then None else parse(TrimV(text));
      var shown := if text == "" then "unknown" else text;
      var info := PodVersionInfo(s.podName, s.container.name, s.container.image, shown);
      match version
      case None =>
        next ==
          if strictMode then t.(failedPods := t.failedPods + [info])
          else t.(skippedPods := t.skippedPods + [info])
      case Some(v) =>
        && next.checkedCount == t.checkedCount + 1 && next.skippedPods == t.skippedPods
        && next.failedPods == if Compare(v, minVersion).Before? then t.failedPods + [info] else t.failedPods
  {
    hide ImageRef.ExtractVersion, Compare, TrimV;
    next := t;
    var imageVersion := ImageRef.ExtractVersion(s.container.image);
    var podVersion := if imageVersion == "" then None else parse(TrimV(imageVersion));
    if podVersion.None? {
      var podInfo := Info(s, if imageVersion == "" then "unknown" else imageVersion);
      if strictMode {
        next := next.(failedPods := next.failedPods + [podInfo]);
      } else {
        next := next.(skippedPods := next.skippedPods + [podInfo]);
      }
    } else {
      next := next.(checkedCount := next.checkedCount + 1);
      if LessThan(podVersion.value, minVersion) {
        next := next.(failedPods := next.failedPods + [Info(s, imageVersion)]);
      }
    }
  }

  /** checkSinglePodVersion. The error paths come in the order of the source: an unusable selector or
      a failed list, then no pods at all, then an unusable minimum version. */
  method CheckSinglePodVersion(parse: Parser, list: PodLister, check: MinPodVersionCheck)
    returns (r: Result<VersionCheckResult>)
    ensures list(check).Err? ==> r.Err?
    ensures list(check) == Ok([]) ==> r == Ok(VersionCheckResult(false, [], []))
    ensures list(check).Ok? && list(check).value != [] ==>
      match parse(TrimV(check.minVersion))
      case None => r.Err?
      case Some(minimum) => r.Ok? && (r.value.passed <==> GateOpen(parse, list(check).value, minimum, check))
    ensures r.Err? <==> Verdict(parse, list, check).Err?
    ensures r.Ok? ==> Verdict(parse, list, check) == Ok(r.value.passed)
    ensures r.Ok? && list(check).value != [] ==>
      var t := TallyOf(parse, parse(TrimV(check.minVersion)).value, IsStrict(check),
                       Considered(list(check).value, check.containerName));
      r.value.failedPods == t.failedPods && r.value.skippedPods == t.skippedPods
  {
    if list(check).Err? {
      return Err;
    }
    var pods := list(check).value;
    if |pods| == 0 {
      return Ok(VersionCheckResult(false, [], []));
    }
    var parsed := parse(TrimV(check.minVersion));
    if parsed.None? {
      return Err;
    }
    var minVersion := parsed.value;
    var strictMode := true;
    if check.strictMode.Some? {
      strictMode := check.strictMode.value;
    }
    var t := CheckPods(parse, minVersion, strictMode, pods, check.containerName);
    TallyDecides(parse, pods, minVersion, check);
    if |t.failedPods| > 0 {
      return Ok(VersionCheckResult(false, t.failedPods, t.skippedPods));
    }
    if t.checkedCount == 0 && |t.skippedPods| > 0 {
      return Ok(VersionCheckResult(false, [], t.skippedPods));
    }
    return Ok(VersionCheckResult(true, [], t.skippedPods));
  }

  /** The nested loops of checkSinglePodVersion. A container name, once found in a pod, ends the search
      in that pod. */
  method CheckPods(parse: Parser, minVersion: Version, strictMode: bool, pods: seq<Pod>, containerName: string)
    returns (t: Tally)
    ensures t == TallyOf(parse, minVersion, strictMode, Considered(pods, containerName))
  {
    hide GradeOf;
    t := Tally([], [], 0);
    for i := 0 to |pods|
      invariant t == TallyOf(parse, minVersion, strictMode, Considered(pods[..i], containerName))
    {
      var pod := pods[i];
      assert pods[..i + 1][..i] == pods[..i];
      ghost var before := Considered(pods[..i], containerName);
      var containers := pod.containers + pod.initContainers;
      ghost var subjects := before;
      var j := 0;
      while j < |containers|
        invariant 0 <= j <= |containers|
        invariant subjects + ConsideredAmong(pod.name, containers[j..], containerName) ==
                  before + ConsideredIn(pod, containerName)
        invariant t == TallyOf(parse, minVersion, strictMode, subjects)
      {
        var container := containers[j];
        assert containers[j..][1..] == containers[j + 1..];
        j := j + 1;
        if containerName != "" && container.name != containerName {
          continue;
        }
        var subject := Subject(pod.name, container);
        TallyOneMore(parse, minVersion, strictMode, subjects, subject);
        t := CheckContainer(parse, minVersion, strictMode, subject, t);
        subjects := subjects + [subject];
        if containerName != "" {
          break;
        }
      }
      assert subjects == before + ConsideredIn(pod, containerName);
    }
    assert pods[..|pods|] == pods;
  }

  // ---------- What the gate promises ----------

  /** The gate in terms of what is read off the images: a pod matches; what has no version fails, unless strict mode
      is switched off; no version comes before the minimum; and unless there is nothing to consider, something has
      a version. */
  lemma GateMeaning(parse: Parser, pods: seq<Pod>, minimum: Version, check: MinPodVersionCheck)
    ensures
      var subjects := Considered(pods, check.containerName);
      GateOpen(parse, pods, minimum, check) <==>
        && pods != []
        && (forall s | s in subjects ::
              var text := ImageRef.ExtractVersion(s.container.image);
              if text == "" || parse(TrimV(text)).None? then check.strictMode == Some(false)
              else !Compare(parse(TrimV(text)).value, minimum).Before?)
        && (subjects != [] ==>
              exists s :: s in subjects && ImageRef.ExtractVersion(s.container.image) != "" &&
                          parse(TrimV(ImageRef.ExtractVersion(s.container.image))).Some?)
  {
    hide ImageRef.ExtractVersion, Compare, TrimV, Considered;
    var subjects := Considered(pods, check.containerName);
    if subjects != [] {
      assert subjects[0] in subjects;
    }
  }

  /** A minimum version is reached by itself, whatever the build metadata. */
  lemma EqualVersionReaches(parse: Parser, minimum: Version, v: Version, image: string)
    requires ImageRef.ExtractVersion(image) != "" && parse(TrimV(ImageRef.ExtractVersion(image))) == Some(v)
    requires v.major == minimum.major && v.minor == minimum.minor && v.patch == minimum.patch
    requires v.prerelease == minimum.prerelease
    ensures GradeOf(parse, minimum, image).Reaches?
  {
    hide ImageRef.ExtractVersion, TrimV;
    CompareFlips(v, minimum);
  }

  /** The containers of a pod, the regular ones first, are all considered; or of those with the name asked for
      the first. */
  lemma ConsideredMeaning(pod: Pod, containerName: string, i: nat)
    requires i < |pod.containers + pod.initContainers|
    ensures
      var all := pod.containers + pod.initContainers;
      if containerName == "" then
        && |ConsideredIn(pod, containerName)| == |all|
        && ConsideredIn(pod, containerName)[i] == Subject(pod.name, all[i])
      else
        (all[i].name == containerName && forall k | 0 <= k < i :: all[k].name != containerName) ==>
          ConsideredIn(pod, containerName) == [Subject(pod.name, all[i])]
  {
    ConsideredAmongMeaning(pod.name, pod.containers + pod.initContainers, containerName, i);
  }

  lemma {:induction false} ConsideredAmongMeaning(
    podName: string, containers: seq<Container>, containerName: string, i: nat)
    requires i < |containers|
    ensures containerName == "" ==>
      && |ConsideredAmong(podName, containers, containerName)| == |containers|
      && ConsideredAmong(podName, containers, containerName)[i] == Subject(podName, containers[i])
    ensures
      containerName != "" && containers[i].name == containerName &&
      (forall k | 0 <= k < i :: containers[k].name != containerName) ==>
        ConsideredAmong(podName, containers, containerName) == [Subject(podName, containers[i])]
  {
    var rest := containers[1..];
    if i > 0 {
      ConsideredAmongMeaning(podName, rest, containerName, i - 1);
      assert forall k | 0 <= k < i - 1 :: rest[k] == containers[k + 1];
    } else if rest != [] {
      ConsideredAmongMeaning(podName, rest, containerName, 0);
    }
  }

  /** The first check that is not passed gives the verdict on the list. */
  lemma {:induction false} FirstNotPassedDecides(
    parse: Parser, list: PodLister, checks: seq<MinPodVersionCheck>, i: nat)
    requires i < |checks| && (forall k | 0 <= k < i :: Verdict(parse, list, checks[k]) == Ok(true))
    requires Verdict(parse, list, checks[i]) != Ok(true)
    ensures VerdictOnAll(parse, list, checks) == Verdict(parse, list, checks[i])
  {
    hide Verdict;
    if i > 0 {
      FirstNotPassedDecides(parse, list, checks[1..], i - 1);
    }
  }

  /** A check is passed exactly when listing the pods is answered, the minimum version parses and the gate is open
      for what was listed, which is at least one pod. */
  lemma PassedMeaning(parse: Parser, list: PodLister, check: MinPodVersionCheck)
    ensures Verdict(parse, list, check) == Ok(true) <==>
      && list(check).Ok? && list(check).value != []
      && parse(TrimV(check.minVersion)).Some?
      && GateOpen(parse, list(check).value, parse(TrimV(check.minVersion)).value, check)
    ensures Verdict(parse, list, check).Err? <==>
      list(check).Err? || (list(check).value != [] && parse(TrimV(check.minVersion)).None?)
  {
    hide GateOpen, TrimV;
  }

  /** A gate that is open for a minimum version is open for every lower one, with the same pods. */
  lemma GateIsMonotone(parse: Parser, pods: seq<Pod>, low: Version, high: Version, check: MinPodVersionCheck)
    requires !Compare(low, high).After?
    requires GateOpen(parse, pods, high, check)
    ensures GateOpen(parse, pods, low, check)
  {
    hide Compare, LessThan, ImageRef.ExtractVersion, TrimV;
    var strict := IsStrict(check);
    var subjects := Considered(pods, check.containerName);
    forall s | s in subjects
      ensures Fails(strict).Holds(GradeOf(parse, low, s.container.image)) ==>
              Fails(strict).Holds(GradeOf(parse, high, s.container.image))
      ensures Skipped(strict).Holds(GradeOf(parse, low, s.container.image)) <==>
              Skipped(strict).Holds(GradeOf(parse, high, s.container.image))
    {
      LowerMinimumGrades(parse, low, high, s.container.image);
    }
  }

  lemma LowerMinimumGrades(parse: Parser, low: Version, high: Version, image: string)
    requires !Compare(low, high).After?
    ensures GradeOf(parse, low, image).Below? ==> GradeOf(parse, high, image).Below?
    ensures GradeOf(parse, low, image).Unversioned? <==> GradeOf(parse, high, image).Unversioned?
  {
    hide ImageRef.ExtractVersion, TrimV, Compare, LessThan;
    var version := parse(TrimV(ImageRef.ExtractVersion(image)));
    if version.Some? && !LessThan(version.value, high) {
      ReachesLowerMinimum(version.value, low, high);
    }
  }

  /** The pod has a container that the check is about. */
  predicate HasContainer(pod: Pod, containerName: string) {
    exists c | c in pod.containers + pod.initContainers :: containerName == "" || c.name == containerName
  }

  /** What a pass is said to mean: every pod that matches has at least the minimum version. */
  ghost predicate EveryPodMeets(parse: Parser, pods: seq<Pod>, minimum: Version, containerName: string) {
    forall p | p in pods ::
      && ConsideredIn(p, containerName) != []
      && forall s | s in ConsideredIn(p, containerName) :: GradeOf(parse, minimum, s.container.image).Reaches?
  }

  /** A pod in which some container was compared, and reaches the minimum. */
  ghost predicate EveryPodReaches(parse: Parser, pods: seq<Pod>, minimum: Version, containerName: string) {
    forall p | p in pods ::
      exists s :: s in ConsideredIn(p, containerName) && GradeOf(parse, minimum, s.container.image).Reaches?
  }

  /** A pass means that every matching pod has at least the minimum version, exactly if every pod has a container
      that the check is about and, in non-strict mode, none was skipped. */
  lemma PassMeansEveryPodMeets(parse: Parser, pods: seq<Pod>, minimum: Version, check: MinPodVersionCheck)
    requires pods != []
    ensures EveryPodMeets(parse, pods, minimum, check.containerName) <==>
      && GateOpen(parse, pods, minimum, check)
      && (forall p | p in pods :: HasContainer(p, check.containerName))
      && (forall s | s in Considered(pods, check.containerName) ::
            !Skipped(IsStrict(check)).Holds(GradeOf(parse, minimum, s.container.image)))
  {
    hide GradeOf, ConsideredIn, HasContainer, Considered;
    var name := check.containerName;
    ConsideredMembers(pods, name);
    forall p | p in pods
      ensures HasContainer(p, name) <==> ConsideredIn(p, name) != []
    {
      ConsideredInSome(p, name);
    }
    if Considered(pods, name) != [] {
      assert Considered(pods, name)[0] in Considered(pods, name);
    } else {
      assert forall p | p in pods :: ConsideredIn(p, name) == [] by {
        NoneConsideredIn(pods, name);
      }
      assert pods[0] in pods;
    }
  }

  /** An open gate means that some container of every pod was compared and reaches the minimum, exactly if every
      pod has one that the check is about, and in non-strict mode one with a version. */
  lemma OpenGateReaches(parse: Parser, pods: seq<Pod>, minimum: Version, check: MinPodVersionCheck)
    requires GateOpen(parse, pods, minimum, check)
    ensures IsStrict(check) ==>
      (EveryPodReaches(parse, pods, minimum, check.containerName) <==>
         forall p | p in pods :: HasContainer(p, check.containerName))
    ensures !IsStrict(check) ==>
      (EveryPodReaches(parse, pods, minimum, check.containerName) <==>
         forall p | p in pods :: exists s :: s in ConsideredIn(p, check.containerName) &&
                                             !GradeOf(parse, minimum, s.container.image).Unversioned?)
  {
    hide GradeOf, ConsideredIn, HasContainer, Considered;
    var name := check.containerName;
    ConsideredMembers(pods, name);
    forall p | p in pods
      ensures HasContainer(p, name) <==> exists s :: s in ConsideredIn(p, name)
    {
      ConsideredInSome(p, name);
      if ConsideredIn(p, name) != [] {
        assert ConsideredIn(p, name)[0] in ConsideredIn(p, name);
      }
    }
  }

  /** What is considered in all pods is what is considered in any of them. */
  lemma {:induction false} ConsideredMembers(pods: seq<Pod>, containerName: string)
    ensures forall s :: s in Considered(pods, containerName) <==>
                        exists p :: p in pods && s in ConsideredIn(p, containerName)
  {
    hide ConsideredIn;
    if pods != [] {
      ConsideredMembers(pods[..|pods| - 1], containerName);
      assert forall p :: p in pods <==> p in pods[..|pods| - 1] || p == pods[|pods| - 1];
    }
  }

  lemma {:induction false} NoneConsideredIn(pods: seq<Pod>, containerName: string)
    requires Considered(pods, containerName) == []
    ensures forall p | p in pods :: ConsideredIn(p, containerName) == []
  {
    hide ConsideredIn;
    if pods != [] {
      NoneConsideredIn(pods[..|pods| - 1], containerName);
      assert forall p :: p in pods <==> p in pods[..|pods| - 1] || p == pods[|pods| - 1];
    }
  }

  lemma ConsideredInSome(pod: Pod, containerName: string)
    ensures ConsideredIn(pod, containerName) != [] <==> HasContainer(pod, containerName)
  {
    var containers := pod.containers + pod.initContainers;
    if containerName != "" {
      NothingConsideredAmong(pod.name, containers, containerName);
    } else if containers != [] {
      assert containers[0] in containers;
    }
  }

  /** A pod without the named container goes through any open gate uncompared. */
  lemma UncomparedPodPasses(parse: Parser, pods: seq<Pod>, other: Pod, minimum: Version, check: MinPodVersionCheck)
    requires GateOpen(parse, pods, minimum, check)
    requires !HasContainer(other, check.containerName)
    ensures Considered(pods + [other], check.containerName) == Considered(pods, check.containerName)
    ensures GateOpen(parse, pods + [other], minimum, check)
    ensures !EveryPodReaches(parse, pods + [other], minimum, check.containerName)
  {
    hide GradeOf, ConsideredIn, HasContainer;
    var all := pods + [other];
    ConsideredInSome(other, check.containerName);
    assert all[..|all| - 1] == pods && all[|all| - 1] == other && other in all;
  }

  /** A container name that no pod has opens the gate of every pod list but the empty one: nothing is
      considered, so nothing fails. */
  lemma MissingContainerPasses(parse: Parser, pods: seq<Pod>, minimum: Version, check: MinPodVersionCheck)
    requires pods != [] && check.containerName != ""
    requires forall p, c | p in pods && c in p.containers + p.initContainers :: c.name != check.containerName
    ensures Considered(pods, check.containerName) == []
    ensures GateOpen(parse, pods, minimum, check)
  {
    NothingConsidered(pods, check.containerName);
  }

  lemma {:induction false} NothingConsidered(pods: seq<Pod>, containerName: string)
    requires containerName != ""
    requires forall p, c | p in pods && c in p.containers + p.initContainers :: c.name != containerName
    ensures Considered(pods, containerName) == []
  {
    if pods != [] {
      var last := pods[|pods| - 1];
      NothingConsidered(pods[..|pods| - 1], containerName);
      assert last in pods;
      NothingConsideredAmong(last.name, last.containers + last.initContainers, containerName);
    }
  }

  lemma {:induction false} NothingConsideredAmong(podName: string, containers: seq<Container>, containerName: string)
    requires containerName != ""
    ensures ConsideredAmong(podName, containers, containerName) == [] <==>
            forall c | c in containers :: c.name != containerName
  {
    if containers != [] {
      NothingConsideredAmong(podName, containers[1..], containerName);
      assert forall c :: c in containers <==> c == containers[0] || c in containers[1..];
    }
  }

  /** CheckMinPodVersions: it stops at the first check that fails or cannot be made. */
  method CheckMinPodVersions(parse: Parser, list: PodLister, checks: seq<MinPodVersionCheck>) returns (r: Result<bool>)
    ensures r == VerdictOnAll(parse, list, checks)
  {
    hide Verdict;
    for i := 0 to |checks|
      invariant VerdictOnAll(parse, list, checks) == VerdictOnAll(parse, list, checks[i..])
    {
      var result := CheckSinglePodVersion(parse, list, checks[i]);
      assert checks[i..][1..] == checks[i + 1..];
      if result.Err? {
        return Err;
      }
      if !result.value.passed {
        return Ok(false);
      }
    }
    return Ok(true);
  }

  /** The checks pass together exactly when each of them passes. */
  lemma {:induction false} PassesIffAllPass(parse: Parser, list: PodLister, checks: seq<MinPodVersionCheck>)
    ensures VerdictOnAll(parse, list, checks) == Ok(true) <==>
            forall c | c in checks :: Verdict(parse, list, c) == Ok(true)
  {
    hide Verdict;
    if checks != [] {
      PassesIffAllPass(parse, list, checks[1..]);
      assert forall c :: c in checks <==> c == checks[0] || c in checks[1..];
    }
  }
}
