/** Migrations of one object are serial, and in orderly runs each is finished before the next begins. */
module Serial {
  import opened Types
  import opened Decision
  import opened Protocol
  import opened Reruns
  import opened Uninterrupted
  import opened Victims

  /** In every orderly run with the webhook, between any two creations of Jobs for the same object, the operator
      deleted the first Job complete or failed; or else one was garbage collected and the object is gone for
      good. */
  lemma EachFinishesFirst(p: Params, actions: seq<Action>, i: nat, k: nat) returns (j: nat)
    requires p.webhook && OrderlyRun(p, INIT, actions)
    requires i < k < |Run(p, INIT, actions).log|
    requires SameOwner(Run(p, INIT, actions).log[i], Run(p, INIT, actions).log[k])
    ensures i < j < k
    ensures
      var w := Run(p, INIT, actions);
      var created, removed := w.log[i], w.log[j];
      || (&& removed.JobDeleted? && IsFinished(removed.victim)
          && removed.victim.name == created.job.name && removed.victim.owners == [created.o.uid])
      || (Collected(w.log[..k], created.o.uid) && !Live(w, created.o.uid))
  {
    hide Run, OrderlyRun, IsForeign, IsSucceeded, IsFailed, Live, ExpectedName;
    j := MigrationsAreSerial(p, actions, i, k);
    var w := Run(p, INIT, actions);
    var removed := w.log[j];
    if removed.JobDeleted? {
      VictimIsOwnUnlessCollected(p, actions, j);
      if IsForeign(removed.victim) {
        CollectedStays(w.log, j, k, removed.o.uid);
      } else {
        NoMigrationIsCutShort(p, actions, removed);
      }
    } else {
      assert removed in w.log[..k] by {
        assert w.log[..k][j] == removed;
      }
    }
  }

  lemma CollectedStays(log: seq<Event>, j: nat, k: nat, uid: Uid)
    requires j <= k <= |log| && Collected(log[..j], uid)
    ensures Collected(log[..k], uid)
  {
    hide OwnedBy;
    var e :| e in log[..j] && e.JobCollected? && OwnedBy(e.job, uid);
    assert e in log[..k];
  }
}
