/** The time that the bake time counts from survives whatever happens: it is in the status, not in the
    memory of the operator. */
module CompletionHistory {
  import opened Types
  import opened Decision
  import opened Protocol
  import opened StoreSafety
  import opened Bake
  import Conditions
  import History

  predicate LandedFor(e: Event, uid: Uid) {
    e.Landed? && e.o.uid == uid
  }

  /** The completion time that the last status to report one has left. */
  function Kept(log: seq<Event>, uid: Uid): (kept: Option<Time>)
    ensures kept.Some? ==> kept.value % SECOND == 0
  {
    if log == [] then None
    else
      var e := log[|log| - 1];
      if LandedFor(e, uid) && e.result.jobCompletedAt.Some? then Some(WholeSeconds(e.result.jobCompletedAt.value))
      else Kept(log[..|log| - 1], uid)
  }

  /** A reconcile found a Job of this owner complete at this time, and no status has landed since. */
  ghost predicate ReadOff(log: seq<Event>, uid: Uid, completedAt: Time, m: nat) {
    && m < |log| && log[m].Synced? && log[m].o.uid == uid
    && IsSucceeded(log[m].job) && completedAt == CompletedAt(log[m].o, log[m].job, log[m].now)
    && (forall l | m < l < |log| :: !LandedFor(log[l], uid))
  }

  ghost predicate WasReadOff(log: seq<Event>, uid: Uid, completedAt: Time) {
    exists m :: ReadOff(log, uid, completedAt, m)
  }

  ghost predicate Remembers(log: seq<Event>, o: DBUpgrade) {
    o.status.jobCompletedAt == Kept(log, o.uid)
  }

  /** A completion time that is reported was read off. */
  ghost predicate Reports(log: seq<Event>, uid: Uid, r: ReconcileResult) {
    r.jobCompletedAt.Some? ==> WasReadOff(log, uid, r.jobCompletedAt.value)
  }

  ghost predicate FlightRemembers(log: seq<Event>, f: Flight) {
    Remembers(log, f.o) && (f.Done? ==> Reports(log, f.o.uid, f.result))
  }

  ghost predicate EventRemembers(log: seq<Event>, k: nat)
    requires k < |log|
  {
    && (log[k].Synced? ==> Remembers(log[..k], log[k].o))
    && (log[k].Landed? ==> Remembers(log[..k], log[k].o) && Reports(log[..k], log[k].o.uid, log[k].result))
  }

  ghost predicate LogRemembers(log: seq<Event>) {
    forall k | 0 <= k < |log| :: EventRemembers(log, k)
  }

  ghost predicate RememberInv(w: World) {
    && (forall n | n in w.objects :: Remembers(w.log, w.objects[n]))
    && (forall n | n in w.flights :: FlightRemembers(w.log, w.flights[n]))
    && (forall e | e in w.log && e.Landed? :: e.o.uid in w.keys)
    && LogRemembers(w.log)
  }

  // ---------- The history grows ----------

  lemma KeptGrows(log: seq<Event>, e: Event, uid: Uid)
    ensures Kept(log + [e], uid) ==
            if LandedFor(e, uid) && e.result.jobCompletedAt.Some? then Some(WholeSeconds(e.result.jobCompletedAt.value))
            else Kept(log, uid)
  {
    assert (log + [e])[..|log|] == log;
  }

  lemma LogStillRemembers(log: seq<Event>, e: Event)
    requires LogRemembers(log)
    requires e.Synced? || e.Landed? ==> Remembers(log, e.o)
    requires e.Landed? ==> Reports(log, e.o.uid, e.result)
    ensures LogRemembers(log + [e])
  {
    hide Remembers, Reports;
    var more := log + [e];
    forall k | 0 <= k < |more|
      ensures EventRemembers(more, k)
    {
      if k < |log| {
        assert EventRemembers(log, k);
        assert more[..k] == log[..k];
      } else {
        assert more[..k] == log;
      }
    }
  }

  lemma FlightStillRemembers(log: seq<Event>, e: Event, f: Flight)
    requires FlightRemembers(log, f) && !LandedFor(e, f.o.uid)
    ensures FlightRemembers(log + [e], f)
  {
    hide IsSucceeded, CompletedAt;
    KeptGrows(log, e, f.o.uid);
    if f.Done? && f.result.jobCompletedAt.Some? {
      var m :| ReadOff(log, f.o.uid, f.result.jobCompletedAt.value, m);
      assert ReadOff(log + [e], f.o.uid, f.result.jobCompletedAt.value, m);
    }
  }

  /** A step at which no status lands. */
  lemma Grown(w: World, v: World)
    requires RememberInv(w)
    requires forall u | u in w.keys :: u in v.keys
    requires v.log == w.log || (|v.log| > 0 && v.log[..|v.log| - 1] == w.log)
    requires v.log != w.log ==>
      var e := v.log[|v.log| - 1];
      !e.Landed? && (e.Synced? ==> Remembers(w.log, e.o))
    requires forall n | n in v.objects :: Remembers(w.log, v.objects[n])
    requires forall n | n in v.flights :: FlightRemembers(w.log, v.flights[n]) || FlightRemembers(v.log, v.flights[n])
    ensures RememberInv(v)
  {
    hide LogRemembers, FlightRemembers;
    if v.log != w.log {
      var e := v.log[|v.log| - 1];
      assert v.log == w.log + [e];
      LogStillRemembers(w.log, e);
      forall n | n in v.objects
        ensures Remembers(v.log, v.objects[n])
      {
        KeptGrows(w.log, e, v.objects[n].uid);
      }
      forall n | n in v.flights
        ensures FlightRemembers(v.log, v.flights[n])
      {
        if FlightRemembers(w.log, v.flights[n]) {
          FlightStillRemembers(w.log, e, v.flights[n]);
        }
      }
    }
  }

  // ---------- Users and the rest of the cluster ----------

  lemma NothingKept(log: seq<Event>, uid: Uid)
    requires forall e | e in log && e.Landed? :: e.o.uid != uid
    ensures Kept(log, uid).None?
  {
  }

  lemma CreateRemembers(p: Params, w: World, n: string, spec: Spec)
    requires StoreInv(w) && RememberInv(w)
    ensures RememberInv(CreateStep(p, w, n, spec))
  {
    hide JobsOk, OneJobEach, FlightsOk, LogRemembers, FlightRemembers, Kept;
    var v := CreateStep(p, w, n, spec);
    if v != w {
      NothingKept(w.log, UpgradeUid(w.nextUid));
      assert v.log[..|v.log| - 1] == w.log;
      Grown(w, v);
    }
  }

  lemma OthersRemember(p: Params, w: World, action: Action)
    requires RememberInv(w)
    requires !action.CreateObject? && !action.Look? && !action.Act? && !action.Create? && !action.Write?
    ensures RememberInv(Step(p, w, action))
  {
    hide LogRemembers, Kept, Reports, LookStep, ActStep, CreateJobStep, WriteStep, CreateStep, Live, Later,
         IsSucceeded;
    var v := Step(p, w, action);
    assert v.log != w.log ==> v.log[..|v.log| - 1] == w.log;
    Grown(w, v);
  }

  // ---------- The operator ----------

  lemma NothingReported(p: Params, o: DBUpgrade, a: Answers)
    ensures EarlyResult(o.spec, a).Some? ==> EarlyResult(o.spec, a).value.jobCompletedAt.None?
    ensures PreChecksResult(p, o.spec, a).jobCompletedAt.None?
    ensures forall reason, seconds :: Stopped(reason, seconds).jobCompletedAt.None?
    ensures forall reason, other, seconds :: InProgress(reason, other, seconds).jobCompletedAt.None?
  {
  }

  lemma LookRemembers(p: Params, w: World, n: string, a: Answers, items: seq<Job>)
    requires RememberInv(w)
    ensures RememberInv(LookStep(p, w, n, a, items))
  {
    hide LogRemembers, Kept, EarlyResult, Stopped, FirstOwned, Lists;
    if n in w.flights {
      NothingReported(p, w.flights[n].o, a);
      Grown(w, LookStep(p, w, n, a, items));
    }
  }

  lemma CreateJobRemembers(p: Params, w: World, n: string, a: Answers)
    requires RememberInv(w)
    ensures RememberInv(CreateJobStep(p, w, n, a))
  {
    hide LogRemembers, Kept, Stopped, InProgress, NewJob;
    if n in w.flights {
      NothingReported(p, w.flights[n].o, a);
      var v := CreateJobStep(p, w, n, a);
      assert v.log != w.log ==> v.log[..|v.log| - 1] == w.log;
      Grown(w, v);
    }
  }

  lemma ActRemembers(p: Params, w: World, n: string, a: Answers)
    requires RememberInv(w)
    ensures RememberInv(ActStep(p, w, n, a))
  {
    hide RememberInv, Remembers, FlightRemembers, PreChecksResult, SyncResult, ExpectedName, IsRunning, Stopped,
         DeleteJobStep;
    if n in w.flights && w.flights[n].Found? {
      var Found(o, found) := w.flights[n];
      var v := ActStep(p, w, n, a);
      FlightDoes(w, n);
      if found.Some? && found.value.name == ExpectedName(p, o) {
        SyncReports(p, w, o, found.value, a);
        var e := Synced(o, found.value, w.now, a, SyncResult(p, o, found.value, w.now, a));
        assert v.log == w.log + [e] && v.log[..|v.log| - 1] == w.log;
        FlightMovesOn(w, v, n);
      } else if found.Some? && !IsRunning(found.value) {
        DeleteRemembers(w, n, o, found.value, a);
      } else {
        NothingReported(p, o, a);
        NotReported(w.log, v.flights[n]);
        FlightMovesOn(w, v, n);
      }
    }
  }

  lemma DeleteRemembers(w: World, n: string, o: DBUpgrade, job: Job, a: Answers)
    requires RememberInv(w) && n in w.flights && w.flights[n].o == o
    ensures RememberInv(DeleteJobStep(w, n, o, job, a))
  {
    hide RememberInv, Remembers, FlightRemembers;
    var v := DeleteJobStep(w, n, o, job, a);
    assert v.log != w.log ==> v.log[..|v.log| - 1] == w.log;
    FlightDoes(w, n);
    NotReported(w.log, v.flights[n]);
    FlightMovesOn(w, v, n);
  }

  lemma FlightDoes(w: World, n: string)
    requires RememberInv(w) && n in w.flights
    ensures Remembers(w.log, w.flights[n].o)
  {
    hide Remembers, LogRemembers, Reports;
  }

  lemma FlightMovesOn(w: World, v: World, n: string)
    requires RememberInv(w) && v.keys == w.keys && v.objects == w.objects && n in v.flights
    requires v.flights == w.flights[n := v.flights[n]]
    requires v.log == w.log || (|v.log| > 0 && v.log[..|v.log| - 1] == w.log)
    requires v.log != w.log ==>
      var e := v.log[|v.log| - 1];
      !e.Landed? && (e.Synced? ==> Remembers(w.log, e.o))
    requires FlightRemembers(w.log, v.flights[n]) || FlightRemembers(v.log, v.flights[n])
    ensures RememberInv(v)
  {
    hide Remembers, FlightRemembers, LogRemembers;
    Grown(w, v);
  }

  lemma NotReported(log: seq<Event>, f: Flight)
    requires Remembers(log, f.o) && (f.Done? ==> f.result.jobCompletedAt.None?)
    ensures FlightRemembers(log, f)
  {
  }

  lemma SyncReports(p: Params, w: World, o: DBUpgrade, j: Job, a: Answers)
    requires Remembers(w.log, o)
    ensures
      var r := SyncResult(p, o, j, w.now, a);
      FlightRemembers(w.log + [Synced(o, j, w.now, a, r)], Done(o, r))
  {
    hide PostChecksResult, IsSucceeded, IsFailed, IsRunning, CompletedAt, Kept;
    var r := SyncResult(p, o, j, w.now, a);
    KeptGrows(w.log, Synced(o, j, w.now, a, r), o.uid);
    if IsSucceeded(j) {
      PostRemembersNothing(p, o, j, w.now, a);
      assert ReadOff(w.log + [Synced(o, j, w.now, a, r)], o.uid, CompletedAt(o, j, w.now), |w.log|);
    }
  }

  lemma WriteRemembers(p: Params, w: World, n: string, a: Answers)
    requires StoreInv(w) && RememberInv(w)
    ensures RememberInv(WriteStep(w, n, a))
  {
    hide StoreInv, FlightRemembers, LogRemembers, Remembers, Reports, NewStatus;
    if Lands(w, n, a) {
      var v := WriteStep(w, n, a);
      var Done(o, r) := w.flights[n];
      var e := Landed(o, r);
      assert v.log == w.log + [e];
      FlightReports(w, n);
      OnlyOwnLands(w, n, n);
      LogStillRemembers(w.log, e);
      LandingRemembers(w.log, o, r, w.now);
      forall m | m in v.objects
        ensures Remembers(v.log, v.objects[m])
      {
        OnlyOwnLands(w, n, m);
        if m == n {
          IgnoresVersion(v.log, w.objects[n].(status := NewStatus(o, r, w.now)), v.nextVersion - 1);
        } else {
          ObjectStillRemembers(w.log, e, w.objects[m]);
        }
      }
      forall m | m in v.flights
        ensures FlightRemembers(v.log, v.flights[m])
      {
        OnlyOwnLands(w, n, m);
        FlightStillRemembers(w.log, e, w.flights[m]);
      }
    }
  }

  lemma IgnoresVersion(log: seq<Event>, o: DBUpgrade, version: nat)
    requires Remembers(log, o)
    ensures Remembers(log, o.(resourceVersion := version))
  {
  }

  lemma ObjectStillRemembers(log: seq<Event>, e: Event, o: DBUpgrade)
    requires Remembers(log, o) && !LandedFor(e, o.uid)
    ensures Remembers(log + [e], o)
  {
    KeptGrows(log, e, o.uid);
  }

  lemma FlightReports(w: World, n: string)
    requires RememberInv(w) && n in w.flights && w.flights[n].Done?
    ensures Remembers(w.log, w.flights[n].o) && Reports(w.log, w.flights[n].o.uid, w.flights[n].result)
  {
    hide Remembers, LogRemembers, Reports;
  }

  /** The status that lands is what is kept. */
  lemma LandingRemembers(log: seq<Event>, o: DBUpgrade, r: ReconcileResult, now: Time)
    requires Remembers(log, o)
    ensures NewStatus(o, r, now).jobCompletedAt == Kept(log + [Landed(o, r)], o.uid)
  {
    hide Kept, Conditions.WithCondition;
    KeptGrows(log, Landed(o, r), o.uid);
  }

  /** No two names have the same UID. */
  lemma OnlyOwnLands(w: World, n: string, m: string)
    requires StoreInv(w) && n in w.flights
    ensures w.flights[n].o.uid in w.keys
    ensures m in w.objects && m != n ==> w.objects[m].uid != w.flights[n].o.uid
    ensures m in w.flights && m != n ==> w.flights[m].o.uid != w.flights[n].o.uid
    ensures n in w.objects && w.objects[n].resourceVersion == w.flights[n].o.resourceVersion ==>
      w.objects[n] == w.flights[n].o
  {
    hide JobsOk, OneJobEach, OwnsNone, StillOwn;
    assert FlightOk(w, n, w.flights[n]);
    assert m in w.flights ==> FlightOk(w, m, w.flights[m]);
  }

  lemma RememberStep(p: Params, w: World, action: Action)
    requires StoreInv(w) && RememberInv(w)
    ensures RememberInv(Step(p, w, action))
  {
    hide StoreInv, RememberInv, CreateStep, UpdateStep, CollectStep, ForeignCreateStep, ForeignDeleteStep,
         RunJobStep, FetchStep, LookStep, ActStep, CreateJobStep, WriteStep;
    match action
    case CreateObject(n, spec) => CreateRemembers(p, w, n, spec);
    case Look(n, a, items) => LookRemembers(p, w, n, a, items);
    case Act(n, a) => ActRemembers(p, w, n, a);
    case Create(n, a) => CreateJobRemembers(p, w, n, a);
    case Write(n, a) => WriteOrNot(p, w, n, a);
    case _ => OthersRemember(p, w, action);
  }

  lemma WriteOrNot(p: Params, w: World, n: string, a: Answers)
    requires StoreInv(w) && RememberInv(w)
    ensures RememberInv(WriteStep(w, n, a))
  {
    hide StoreInv, Remembers, FlightRemembers, LogRemembers, NewStatus;
    if Lands(w, n, a) {
      WriteRemembers(p, w, n, a);
    }
  }

  lemma {:induction false} RemembersAlways(p: Params, w: World, actions: seq<Action>)
    requires StoreInv(w) && RememberInv(w)
    ensures RememberInv(Run(p, w, actions))
    decreases |actions|
  {
    hide StoreInv, RememberInv, Step;
    if actions != [] {
      StoreInvStep(p, w, actions[0]);
      RememberStep(p, w, actions[0]);
      RemembersAlways(p, Step(p, w, actions[0]), actions[1..]);
    }
  }

  lemma RemembersFromStart(p: Params, actions: seq<Action>)
    ensures RememberInv(Run(p, INIT, actions))
  {
    hide Run;
    RemembersAlways(p, INIT, actions);
  }

  // ---------- What it gives ----------

  /** What is kept changes only after a Job with a completion time of its own was read off. */
  lemma {:induction false} KeptStays(log: seq<Event>, i: nat, k: nat, uid: Uid, t: Time)
    requires LogRemembers(log) && i < k <= |log|
    requires LandedFor(log[i], uid) && Kept(log[..i + 1], uid) == Some(t)
    requires forall m | i < m < k && log[m].Synced? && log[m].o.uid == uid && IsSucceeded(log[m].job) ::
               log[m].job.status.completionTime.None?
    ensures Kept(log[..k], uid) == Some(t)
    decreases k
  {
    hide IsSucceeded, Kept;
    if k > i + 1 {
      var e := log[k - 1];
      KeptStays(log, i, k - 1, uid, t);
      KeptGrows(log[..k - 1], e, uid);
      assert log[..k] == log[..k - 1] + [e];
      if LandedFor(e, uid) && e.result.jobCompletedAt.Some? {
        assert EventRemembers(log, k - 1);
        var m: nat :| ReadOff(log[..k - 1], uid, e.result.jobCompletedAt.value, m);
        assert log[..k - 1][m] == log[m];
        assert m > i by {
          assert log[..k - 1][i] == log[i];
        }
        KeptStays(log, i, m, uid, t);
        assert EventRemembers(log, m);
      }
    }
  }

  /** Bake time survives restarts: in every run, once a status with a completion time has landed for a
      DBUpgrade, every later reconcile, after whatever crashes, restarts and status writes, that reads off a
      complete Job without a completion time of its own counts from the time that was stored, which is less
      than a second before the one reported, as long as no Job that has its own was read off in between. */
  lemma BakeSurvivesRestarts(p: Params, actions: seq<Action>, i: nat, k: nat, t: Time)
    requires i < k < |Run(p, INIT, actions).log|
    requires
      var log := Run(p, INIT, actions).log;
      && log[i].Landed? && log[k].Synced? && log[k].o.uid == log[i].o.uid
      && NewStatus(log[i].o, log[i].result, 0).jobCompletedAt == Some(t)
      && (forall m | i < m <= k && log[m].Synced? && log[m].o.uid == log[i].o.uid && IsSucceeded(log[m].job) ::
            log[m].job.status.completionTime.None?)
      && IsSucceeded(log[k].job)
    ensures
      var log := Run(p, INIT, actions).log;
      && CompletedAt(log[k].o, log[k].job, log[k].now) == t
      && (log[i].result.jobCompletedAt.Some? ==>
            log[i].result.jobCompletedAt.value - SECOND < t <= log[i].result.jobCompletedAt.value)
  {
    hide Run, IsSucceeded, Kept, Conditions.WithCondition;
    RemembersFromStart(p, actions);
    var log := Run(p, INIT, actions).log;
    var uid := log[i].o.uid;
    assert EventRemembers(log, i) && EventRemembers(log, k);
    LandingRemembers(log[..i], log[i].o, log[i].result, 0);
    assert log[..i + 1] == log[..i] + [Landed(log[i].o, log[i].result)];
    KeptStays(log, i, k, uid, t);
  }

  /** One reconcile waits for the bake time of a complete Job and its status lands; later another one finds a
      complete Job of the same object and spec, and no Job read off meanwhile had another completion time of
      its own. */
  ghost predicate WaitsThenReturns(p: Params, log: seq<Event>, i: nat, landed: nat, k: nat) {
    && i < landed < k < |log| && log[i].Synced? && log[k].Synced?
    && log[landed] == Landed(log[i].o, log[i].result)
    && log[k].o.uid == log[i].o.uid && log[k].o.spec == log[i].o.spec
    && Bakes(p, log[i].o, log[i].job, log[i].now, log[i].answers)
    && IsSucceeded(log[k].job)
    && (forall m | landed < m <= k && log[m].Synced? && log[m].o.uid == log[i].o.uid && IsSucceeded(log[m].job) ::
          log[m].job.status.completionTime == log[i].job.status.completionTime)
  }

  /** The completion time can be counted from, and what is left of the bake time fits. */
  predicate Countable(p: Params, e: Event)
    requires e.Synced?
  {
    var completedAt := CompletedAt(e.o, e.job, e.now);
    InRange(e.now - completedAt) && !BakeOverflows(p, e.o.spec, completedAt, e.now, e.answers)
  }

  /** In every run, when a reconcile has waited for the bake time, one that comes after the wait finds it over,
      whatever crashes, restarts and other reconciles there were meanwhile: if the wait ends on time at once,
      and otherwise a second later. */
  lemma OneWaitInEveryRun(p: Params, actions: seq<Action>, i: nat, landed: nat, k: nat)
    requires WaitsThenReturns(p, Run(p, INIT, actions).log, i, landed, k)
    requires
      var log := Run(p, INIT, actions).log;
      && Countable(p, log[i]) && Countable(p, log[k])
      && log[k].now >= log[i].now + log[i].result.requeueAfter
    ensures
      var log := Run(p, INIT, actions).log;
      EndsOnTime(CompletedAt(log[i].o, log[i].job, log[i].now), log[i].now) ||
      log[k].now >= log[i].now + log[i].result.requeueAfter + SECOND ==>
        !Bakes(p, log[k].o, log[k].job, log[k].now, log[k].answers)
  {
    hide Run, IsSucceeded, SyncResult, EndsOnTime, InRange, BakeOverflows, StoreInv, CompletedAt,
         Conditions.WithCondition, Kept;
    History.HistoryFromStart(p, actions);
    var log := Run(p, INIT, actions).log;
    var e, f := log[i], log[k];
    assert History.Justified(p, log, e);
    PostRemembersNothing(p, e.o, e.job, e.now, e.answers);
    if e.job.status.completionTime.None? {
      var t := WholeSeconds(CompletedAt(e.o, e.job, e.now));
      BakeSurvivesRestarts(p, actions, landed, k, t);
    } else {
      OwnCompletion(e.o, e.job, e.now, f.o, f.job, f.now);
    }
    OneWaitIsEnough(p, e.o, e.job, e.now, e.answers, f.o, f.job, f.now, f.answers);
  }

  lemma OwnCompletion(o: DBUpgrade, j: Job, now: Time, o': DBUpgrade, j': Job, later: Time)
    requires j.status.completionTime.Some? && j'.status.completionTime == j.status.completionTime
    ensures CompletedAt(o, j, now) == CompletedAt(o', j', later)
  {
  }
}
