/** The one Job that a DBUpgrade owns, if any, before and after a whole reconcile. */
module OwnJobs {
  import opened Types
  import opened Decision
  import opened Protocol
  import opened StoreSafety
  import opened Atomic

  /** The Job of an owner, who has at most one. */
  ghost function OwnJob(jobs: map<string, Job>, uid: Uid): Option<Job> {
    if m :| m in jobs && OwnedBy(jobs[m], uid) then Some(jobs[m]) else None
  }

  lemma OwnJobIs(jobs: map<string, Job>, uid: Uid, n: string)
    requires n in jobs && OwnedBy(jobs[n], uid)
    requires forall m | m in jobs && OwnedBy(jobs[m], uid) :: m == n
    ensures OwnJob(jobs, uid) == Some(jobs[n])
  {
  }

  /** What the lookup finds. */
  lemma FoundIsOwn(w: World, items: seq<Job>, uid: Uid)
    requires JobsOk(w) && OneJobEach(w) && uid.UpgradeUid? && Lists(items, w.jobs)
    ensures FirstOwned(items, uid) == OwnJob(w.jobs, uid)
    ensures OwnJob(w.jobs, uid).Some? ==>
      var j := OwnJob(w.jobs, uid).value;
      j.name in w.jobs && w.jobs[j.name] == j && OwnedBy(j, uid) &&
      forall m | m in w.jobs && OwnedBy(w.jobs[m], uid) :: m == j.name
  {
    hide NamedFor;
    var found := FirstOwned(items, uid);
    if m :| m in w.jobs && OwnedBy(w.jobs[m], uid) {
      assert w.jobs[m] in items;
      assert found.Some? && w.jobs[found.value.name] == found.value;
      OwnJobIs(w.jobs, uid, found.value.name);
    }
  }

  /** The Job of the object after a reconcile. */
  ghost function NextJob(p: Params, o: DBUpgrade, jobs: map<string, Job>, job: Option<Job>, a: Answers): Option<Job> {
    if !ReachesJobs(o.spec, a) then job
    else
      match job
      case None =>
        var starts := PreChecksResult(p, o.spec, a).ready && a.created.TakesEffect() && ExpectedName(p, o) !in jobs;
        if starts then Some(NewJob(p, o)) else None
      case Some(j) =>
        if j.name != ExpectedName(p, o) && !IsRunning(j) && a.deleted.TakesEffect() then None else job
  }

  lemma NextJobIsOwn(p: Params, w: World, o: DBUpgrade, items: seq<Job>, a: Answers)
    requires JobsOk(w) && OneJobEach(w) && o.uid.UpgradeUid? && Lists(items, w.jobs)
    ensures
      var out := OutcomeOf(p, o, w.jobs, FirstOwned(items, o.uid), w.now, a);
      OwnJob(out.jobs, o.uid) == NextJob(p, o, w.jobs, OwnJob(w.jobs, o.uid), a)
  {
    hide NamedFor, PreChecksResult, SyncResult, ExpectedName, IsRunning, EarlyResult, Stopped, InProgress, OwnJob,
         JobsOk, OneJobEach, Lists, FirstOwned;
    var job := OwnJob(w.jobs, o.uid);
    FoundIsOwn(w, items, o.uid);
    var out := OutcomeOf(p, o, w.jobs, job, w.now, a);
    if out.jobs != w.jobs {
      if job.None? {
        NoOwnJob(w.jobs, o.uid);
        OwnJobIs(out.jobs, o.uid, NewJob(p, o).name);
      } else if job.value.name !in out.jobs {
        NoneIsOwn(out.jobs, o.uid);
      }
    }
  }

  lemma NoOwnJob(jobs: map<string, Job>, uid: Uid)
    requires OwnJob(jobs, uid).None?
    ensures forall m | m in jobs :: !OwnedBy(jobs[m], uid)
  {
  }

  lemma NoneIsOwn(jobs: map<string, Job>, uid: Uid)
    requires forall m | m in jobs :: !OwnedBy(jobs[m], uid)
    ensures OwnJob(jobs, uid).None?
  {
  }
}
