/** No wakeup is lost: in every run, a reconcile that ends for good has nothing left to wait for. */
module Wakeups {
  import opened Types
  import opened Decision
  import opened Protocol
  import opened StoreSafety
  import opened History

  /** A Job was read off that leaves nothing to wait for, or for too long. */
  ghost predicate EndsWith(p: Params, log: seq<Event>, o: DBUpgrade, r: ReconcileResult, e: Event) {
    && e in log && e.Synced? && e.o == o && e.result == r
    && var completedAt := CompletedAt(o, e.job, e.now);
       if IsSucceeded(e.job) then
         || PostGatesOpen(p, o.spec, completedAt, e.now, e.answers)
         || BakeOverflows(p, o.spec, completedAt, e.now, e.answers)
       else IsFailed(e.job)
  }

  predicate LacksAws(spec: Spec) {
    (spec.database.kind.AwsRds? || spec.database.kind.AwsAurora?) && spec.database.aws.None?
  }

  /** The reasons for not coming back: an AWS database without its configuration, a migration that is
      complete and checked or that failed, or a bake time that overflows. */
  ghost predicate Rests(p: Params, log: seq<Event>, o: DBUpgrade, r: ReconcileResult) {
    LacksAws(o.spec) || exists e :: EndsWith(p, log, o, r, e)
  }

  /** A result that does not come back has a reason, and a lack of configuration is one. */
  ghost predicate WakesUp(p: Params, log: seq<Event>, o: DBUpgrade, r: ReconcileResult) {
    && (r.requeueAfter <= 0 ==> Rests(p, log, o, r))
    && (LacksAws(o.spec) ==> r.requeueAfter <= 0)
  }

  ghost predicate WakeInv(p: Params, w: World) {
    && (forall n | n in w.flights && w.flights[n].Done? :: WakesUp(p, w.log, w.flights[n].o, w.flights[n].result))
    && (forall n | n in w.flights && (w.flights[n].Found? || w.flights[n].Cleared?) :: !LacksAws(w.flights[n].o.spec))
    && (forall e | e in w.log && e.Landed? :: WakesUp(p, w.log, e.o, e.result))
  }

  // ---------- The history grows ----------

  lemma WakesUpStays(p: Params, log: seq<Event>, more: seq<Event>, o: DBUpgrade, r: ReconcileResult)
    requires WakesUp(p, log, o, r) && Grows(log, more)
    ensures WakesUp(p, more, o, r)
  {
    hide BakeOverflows, PostGatesOpen, CompletedAt, LacksAws, IsFailed, IsSucceeded;
    if e :| EndsWith(p, log, o, r, e) {
      assert EndsWith(p, more, o, r, e);
    }
  }

  /** What a reconcile that moves may hold. */
  ghost predicate FlightWakesUp(p: Params, log: seq<Event>, f: Flight) {
    && (f.Done? ==> WakesUp(p, log, f.o, f.result))
    && (f.Found? || f.Cleared? ==> !LacksAws(f.o.spec))
  }

  /** The history grows by one event at most, and at most one reconcile moves. */
  lemma WakeInvStays(p: Params, w: World, v: World, n: string)
    requires WakeInv(p, w)
    requires v.log == w.log || (|v.log| > 0 && v.log[..|v.log| - 1] == w.log)
    requires v.log != w.log && v.log[|v.log| - 1].Landed? ==>
      WakesUp(p, v.log, v.log[|v.log| - 1].o, v.log[|v.log| - 1].result)
    requires forall m | m in v.flights && m != n :: m in w.flights && v.flights[m] == w.flights[m]
    requires n in v.flights && (n in w.flights ==> v.flights[n] != w.flights[n]) ==>
      FlightWakesUp(p, v.log, v.flights[n])
    ensures WakeInv(p, v)
  {
    hide WakesUp, LacksAws;
    assert v.log != w.log ==> v.log == w.log + [v.log[|v.log| - 1]];
    forall m | m in v.flights && v.flights[m].Done?
      ensures WakesUp(p, v.log, v.flights[m].o, v.flights[m].result)
    {
      if m != n || (n in w.flights && v.flights[n] == w.flights[n]) {
        WakesUpStays(p, w.log, v.log, v.flights[m].o, v.flights[m].result);
      }
    }
    forall e | e in v.log && e.Landed?
      ensures WakesUp(p, v.log, e.o, e.result)
    {
      if e in w.log {
        WakesUpStays(p, w.log, v.log, e.o, e.result);
      }
    }
  }

  // ---------- The operator ----------

  lemma EarlyWakesUp(p: Params, log: seq<Event>, o: DBUpgrade, a: Answers)
    ensures EarlyResult(o.spec, a).Some? ==> WakesUp(p, log, o, EarlyResult(o.spec, a).value)
    ensures EarlyResult(o.spec, a).None? ==> !LacksAws(o.spec)
  {
  }

  lemma LookWakesUp(p: Params, w: World, n: string, a: Answers, items: seq<Job>)
    requires WakeInv(p, w)
    ensures WakeInv(p, LookStep(p, w, n, a, items))
  {
    hide WakeInv, WakesUp, EarlyResult, FirstOwned, Lists, LacksAws;
    var v := LookStep(p, w, n, a, items);
    if v != w {
      EarlyWakesUp(p, w.log, w.flights[n].o, a);
      SoonWakesUp(p, w.log, w.flights[n].o);
      WakeInvStays(p, w, v, n);
    }
  }

  lemma SoonWakesUp(p: Params, log: seq<Event>, o: DBUpgrade)
    ensures !LacksAws(o.spec) ==>
      forall reason, seconds | seconds > 0 ::
        WakesUp(p, log, o, Stopped(reason, seconds)) && WakesUp(p, log, o, InProgress(Initializing, reason, seconds))
  {
    hide Rests, LacksAws;
  }

  lemma SyncWakesUp(p: Params, log: seq<Event>, o: DBUpgrade, j: Job, now: Time, a: Answers)
    requires Synced(o, j, now, a, SyncResult(p, o, j, now, a)) in log && !LacksAws(o.spec)
    ensures WakesUp(p, log, o, SyncResult(p, o, j, now, a))
  {
    hide IsSucceeded, IsFailed, CompletedAt, BakeOverflows, PostGatesOpen, SyncResult, LacksAws;
    var r := SyncResult(p, o, j, now, a);
    SyncComesBack(p, o, j, now, a);
    if r.requeueAfter <= 0 {
      assert EndsWith(p, log, o, r, Synced(o, j, now, a, r));
    }
  }

  lemma ActWakesUp(p: Params, w: World, n: string, a: Answers)
    requires WakeInv(p, w)
    ensures WakeInv(p, ActStep(p, w, n, a))
  {
    hide WakeInv, WakesUp, PreChecksResult, SyncResult, ExpectedName, IsRunning, Stopped, InProgress, LacksAws;
    if n in w.flights && w.flights[n].Found? {
      var v := ActStep(p, w, n, a);
      var Found(o, found) := w.flights[n];
      FoundHasAws(p, w, n);
      SoonWakesUp(p, v.log, o);
      if found.None? {
        PreChecksWakeUp(p, w.log, o, a);
      } else if found.value.name == ExpectedName(p, o) {
        var e := Synced(o, found.value, w.now, a, SyncResult(p, o, found.value, w.now, a));
        assert v.log == w.log + [e] && v.log[..|v.log| - 1] == w.log && e in v.log;
        SyncWakesUp(p, v.log, o, found.value, w.now, a);
      }
      assert v.log != w.log ==> v.log[..|v.log| - 1] == w.log;
      WakeInvStays(p, w, v, n);
    }
  }

  lemma FoundHasAws(p: Params, w: World, n: string)
    requires WakeInv(p, w) && n in w.flights
    ensures w.flights[n].Found? || w.flights[n].Cleared? ==> !LacksAws(w.flights[n].o.spec)
    ensures w.flights[n].Done? ==> WakesUp(p, w.log, w.flights[n].o, w.flights[n].result)
  {
    hide WakesUp, LacksAws;
  }

  lemma PreChecksWakeUp(p: Params, log: seq<Event>, o: DBUpgrade, a: Answers)
    requires !LacksAws(o.spec)
    ensures !PreChecksResult(p, o.spec, a).ready ==> WakesUp(p, log, o, PreChecksResult(p, o.spec, a))
  {
    hide PreChecksResult, Rests, LacksAws;
    PreChecksMeaning(p, o.spec, a);
  }

  lemma CreateJobWakesUp(p: Params, w: World, n: string, a: Answers)
    requires WakeInv(p, w)
    ensures WakeInv(p, CreateJobStep(p, w, n, a))
  {
    hide WakeInv, WakesUp, ExpectedName, Stopped, InProgress, LacksAws;
    if n in w.flights && w.flights[n].Cleared? {
      var v := CreateJobStep(p, w, n, a);
      FoundHasAws(p, w, n);
      SoonWakesUp(p, v.log, w.flights[n].o);
      assert v.log != w.log ==> v.log[..|v.log| - 1] == w.log;
      WakeInvStays(p, w, v, n);
    }
  }

  lemma WriteWakesUp(p: Params, w: World, n: string, a: Answers)
    requires WakeInv(p, w)
    ensures WakeInv(p, WriteStep(w, n, a))
  {
    hide WakeInv, WakesUp, NewStatus, LacksAws;
    if n in w.flights && w.flights[n].Done? {
      var v := WriteStep(w, n, a);
      assert v.log != w.log ==> v.log[..|v.log| - 1] == w.log;
      FoundHasAws(p, w, n);
      assert Grows(w.log, v.log);
      WakesUpStays(p, w.log, v.log, w.flights[n].o, w.flights[n].result);
      WakeInvStays(p, w, v, n);
    }
  }

  /** What the users and the rest of the cluster do records no status and moves no reconcile. */
  lemma OthersWakeUp(p: Params, w: World, action: Action)
    requires WakeInv(p, w)
    requires !action.Look? && !action.Act? && !action.Create? && !action.Write?
    ensures WakeInv(p, Step(p, w, action))
  {
    hide WakeInv, WakesUp, LacksAws, LookStep, ActStep, CreateJobStep, WriteStep, Later, IsSucceeded, Live;
    var v := Step(p, w, action);
    assert v.log != w.log ==> v.log[..|v.log| - 1] == w.log;
    var n := if action.Fetch? || action.Crash? then action.name else "";
    WakeInvStays(p, w, v, n);
  }

  lemma {:induction false} WakeInvAlways(p: Params, w: World, actions: seq<Action>)
    requires WakeInv(p, w)
    ensures WakeInv(p, Run(p, w, actions))
    decreases |actions|
  {
    hide WakeInv, LookStep, ActStep, CreateJobStep, WriteStep, CreateStep, UpdateStep, CollectStep,
         ForeignCreateStep, ForeignDeleteStep, RunJobStep, FetchStep;
    if actions != [] {
      match actions[0] {
        case Look(n, a, items) => LookWakesUp(p, w, n, a, items);
        case Act(n, a) => ActWakesUp(p, w, n, a);
        case Create(n, a) => CreateJobWakesUp(p, w, n, a);
        case Write(n, a) => WriteWakesUp(p, w, n, a);
        case _ => OthersWakeUp(p, w, actions[0]);
      }
      WakeInvAlways(p, Step(p, w, actions[0]), actions[1..]);
    }
  }

  /** In every run, a reconcile whose status landed does not come back by itself exactly when it has one of
      the reasons not to. */
  lemma NoLostWakeup(p: Params, actions: seq<Action>, e: Event)
    requires e in Run(p, INIT, actions).log && e.Landed?
    ensures e.result.requeueAfter <= 0 <==> Rests(p, Run(p, INIT, actions).log, e.o, e.result)
  {
    hide Run, LacksAws, StoreInv, SyncResult, IsFailed, IsSucceeded, BakeOverflows, PostGatesOpen, CompletedAt;
    WakeInvAlways(p, INIT, actions);
    HistoryFromStart(p, actions);
    var log := Run(p, INIT, actions).log;
    if d :| EndsWith(p, log, e.o, e.result, d) {
      assert Justified(p, log, d);
      SyncComesBack(p, d.o, d.job, d.now, d.answers);
    }
  }
}
