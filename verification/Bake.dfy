/** The bake time: how one reconcile waits for it, and when the wait is over. */
module Bake {
  import opened Types
  import opened Decision
  import opened Protocol
  import opened Atomic
  import opened History
  import MetricGate

  /** A reconcile found the Job of this object complete and its bake time not yet over. */
  ghost predicate Bakes(p: Params, o: DBUpgrade, j: Job, now: Time, a: Answers) {
    IsSucceeded(j) && SyncResult(p, o, j, now, a).readyReason == PostCheckBakeTimeWaiting
  }

  lemma BakesIff(p: Params, o: DBUpgrade, j: Job, now: Time, a: Answers)
    requires IsSucceeded(j)
    ensures Bakes(p, o, j, now, a) <==>
            HasPostGates(p, o.spec) && BakeWait(PostMaxBake(o.spec), now - CompletedAt(o, j, now), a.outOfRange).Some?
    ensures Bakes(p, o, j, now, a) ==>
            SyncResult(p, o, j, now, a).requeueAfter ==
            BakeWait(PostMaxBake(o.spec), now - CompletedAt(o, j, now), a.outOfRange).value * SECOND
  {
    hide MetricGate.VerdictOnAll, BakeWait, MaxBake, CompletedAt;
  }

  /** In every run, a reconcile of a complete Job that did not wait, and so evaluated the post metrics whatever
      came of it, did so after each single bake time had passed since the completion of the Job. */
  lemma MetricsWaitForBake(p: Params, actions: seq<Action>, e: Event, check: MetricCheck)
    requires e in Run(p, INIT, actions).log && e.Synced?
    requires IsSucceeded(e.job) && e.result.readyReason != PostCheckBakeTimeWaiting
    requires p.restConfig && e.o.spec.checks.Some?
    requires check in e.o.spec.checks.value.postMetrics && check.bakeSeconds > 0
    requires InRange(e.now - CompletedAt(e.o, e.job, e.now))
    ensures e.now >= CompletedAt(e.o, e.job, e.now) + check.bakeSeconds * SECOND
  {
    hide Run, BakeWait, MaxBake, SyncResult, CompletedAt, InRange, IsSucceeded;
    HistoryFromStart(p, actions);
    assert Justified(p, Run(p, INIT, actions).log, e);
    BakesIff(p, e.o, e.job, e.now, e.answers);
    BakeIsNeverShort(e.o.spec.checks.value.postMetrics, e.now - CompletedAt(e.o, e.job, e.now), e.answers.outOfRange);
  }

  /** The completion time is not in the future, or a whole number of seconds away. */
  predicate EndsOnTime(completedAt: Time, now: Time) {
    completedAt <= now || (completedAt - now) % SECOND == 0
  }

  /** A wait is at least a second long and ends less than a second late. The first reconcile after it does not
      wait again, whatever else has changed, if the completion time is no later than it was taken to be and
      the wait ends on time; if it does not end on time, one more second is waited for, and no more. */
  lemma OneWaitIsEnough(p: Params, o: DBUpgrade, j: Job, now: Time, a: Answers,
                        o': DBUpgrade, j': Job, later: Time, a': Answers)
    requires Bakes(p, o, j, now, a) && InRange(now - CompletedAt(o, j, now))
    requires !BakeOverflows(p, o.spec, CompletedAt(o, j, now), now, a)
    requires o'.spec == o.spec && IsSucceeded(j') && CompletedAt(o', j', later) <= CompletedAt(o, j, now)
    requires later >= now + SyncResult(p, o, j, now, a).requeueAfter && InRange(later - CompletedAt(o', j', later))
    ensures
      var wait := SyncResult(p, o, j, now, a).requeueAfter;
      var completedAt := CompletedAt(o, j, now);
      && wait >= SECOND
      && now + wait < completedAt + (PostMaxBake(o.spec) + 1) * SECOND
      && (EndsOnTime(completedAt, now) ==> !Bakes(p, o', j', later, a'))
      && (later >= now + wait + SECOND ==> !Bakes(p, o', j', later, a'))
      && (!EndsOnTime(completedAt, now) && later == now + wait && CompletedAt(o', j', later) == completedAt ==>
            Bakes(p, o', j', later, a') && SyncResult(p, o', j', later, a').requeueAfter == SECOND)
  {
    hide SyncResult, CompletedAt, MaxBake, IsSucceeded, Wrap32, BakeWait, InRange;
    BakesIff(p, o, j, now, a);
    BakesIff(p, o', j', later, a');
    OnlyWaitsForSome(PostMaxBake(o.spec), now - CompletedAt(o, j, now), a.outOfRange);
    WaitEnds(PostMaxBake(o.spec), now - CompletedAt(o, j, now), a.outOfRange,
             later - CompletedAt(o', j', later), a'.outOfRange);
  }

  lemma OnlyWaitsForSome(max: Int32, span: Time, outOfRange: Int32)
    requires BakeWait(max, span, outOfRange).Some?
    ensures max > 0
  {
  }

  /** The same about spans of time since completion. */
  lemma WaitEnds(max: Int32, span: Time, outOfRange: Int32, after: Time, outOfRange': Int32)
    requires InRange(span) && InRange(after) && BakeWait(max, span, outOfRange).Some?
    requires max - ElapsedSeconds(span, outOfRange) < 0x8000_0000
    requires after >= span + BakeWait(max, span, outOfRange).value * SECOND
    ensures
      var wait := BakeWait(max, span, outOfRange).value;
      && wait >= 1
      && span + wait * SECOND < (max + 1) * SECOND
      && (span >= 0 || (-span) % SECOND == 0 ==> BakeWait(max, after, outOfRange').None?)
      && (after >= span + wait * SECOND + SECOND ==> BakeWait(max, after, outOfRange').None?)
      && (!(span >= 0 || (-span) % SECOND == 0) && after == span + wait * SECOND ==>
            BakeWait(max, after, outOfRange') == Some(1))
  {
    BakeIsOneWait(max, span, after, outOfRange');
    BakeIsOneWait(max, span, after, outOfRange);
    assert (-span) % SECOND == 0 <==> span % SECOND == 0;
    hide Truncate;
    if after >= span + (max - Truncate(span)) * SECOND + SECOND {
      SpanReaches(max, span);
      LongSpanIsOver(max, after, outOfRange');
    }
  }

  lemma SpanReaches(max: Int32, span: Time)
    requires Truncate(span) < max
    ensures span + (max - Truncate(span)) * SECOND + SECOND >= max * SECOND
  {
  }

  lemma LongSpanIsOver(max: Int32, after: Time, outOfRange: Int32)
    requires InRange(after) && after >= max * SECOND
    ensures BakeWait(max, after, outOfRange).None?
  {
    if max > 0 {
      assert after / SECOND >= max;
    }
  }

  /** What one reconcile of a complete Job keeps of the completion time that it worked with: all later
      reconciles of the Job work with the same one exactly when the Job has its own, or the status that is
      left, old or written now in whole seconds, is exactly that time. */
  lemma CompletionIsKept(p: Params, w: World, o: DBUpgrade, j: Job, a: Answers)
    requires IsSucceeded(j) && j.name == ExpectedName(p, o)
    ensures
      var r := OutcomeOf(p, o, w.jobs, Some(j), w.now, a).result;
      var completedAt := CompletedAt(o, j, w.now);
      (forall later :: CompletedAt(Written(w, o, r, a), j, later) == completedAt) <==>
        || j.status.completionTime.Some?
        || (o.status.jobCompletedAt.Some? && (a.written.TakesEffect() ==> completedAt % SECOND == 0))
        || (&& o.status.jobCompletedAt.None? && a.written.TakesEffect() && ReachesJobs(o.spec, a)
            && completedAt % SECOND == 0)
  {
    hide PostChecksResult, IsSucceeded, ExpectedName;
    var r := OutcomeOf(p, o, w.jobs, Some(j), w.now, a).result;
    assert r.jobCompletedAt == if ReachesJobs(o.spec, a) then Some(CompletedAt(o, j, w.now)) else None by {
      PostRemembersNothing(p, o, j, w.now, a);
    }
    hide OutcomeOf;
    var left := Written(w, o, r, a);
    assert CompletedAt(left, j, w.now + 1) ==
           j.status.completionTime.GetOr(left.status.jobCompletedAt.GetOr(w.now + 1));
  }

  lemma PostRemembersNothing(p: Params, o: DBUpgrade, j: Job, now: Time, a: Answers)
    requires IsSucceeded(j)
    ensures SyncResult(p, o, j, now, a).jobCompletedAt == Some(CompletedAt(o, j, now))
  {
  }
}
