/**
 A candidate that waits for a bare job id, reached from the beginning (argent_core/merge_queue.py): it is READY, its
 prerequisite is INTEGRATED, and every later pass defers it.
 */
module StuckCandidate {
  import opened Wrappers
  import opened CommitGraph
  import opened IntegrationOrder
  import opened MergeQueue
  import opened IntegratedHistory
  import opened OutOfOrder
  import opened ProcessTarget

  const STUCK: Key := Key(0, 4)

  /** A candidate whose prerequisite is INTEGRATED is enqueued with the dependency as given, and promoted. */
  lemma EnqueueDependent(s: Store, key: Key, position: nat, dep: Ref, source: Sha) returns (acts: seq<Action>)
    requires key !in s.rows && 0 !in s.runs && IsNextPosition(s, key.queue, position) && IsAncestor(s.commits, 0, source)
    requires IsIntegrated(s, Prerequisite(key, dep))
    ensures Runs(s, acts)
    ensures var t := After(s, acts); key in t.rows && t.rows[key].state == Ready && t.rows[key].dependsOn == Some(dep)
  {
    hide IsNextPosition, Runs, After;
    var a, b, c := Enqueue(key, position, Some(dep), None, 0, source, 0), Decide(0, key, true), Promote(0);
    var s1 := Apply(s, a);
    var s2 := Apply(s1, b);
    assert IsIntegrated(s1, Prerequisite(key, dep));
    assert Runs(s, []) && After(s, []) == s by { NoSteps(s); }
    RunsSnoc(s, [], a);
    RunsSnoc(s, [] + [a], b);
    RunsSnoc(s, [] + [a] + [b], c);
    acts := [] + [a] + [b] + [c];
  }

  lemma NoSteps(s: Store)
    ensures Runs(s, []) && After(s, []) == s
  {
  }

  /** A run from the beginning ends with such a row, so `DeferredForever` applies to it. */
  lemma JobDependencyGetsStuck() returns (acts: seq<Action>)
    ensures Init(ORIGIN) && Runs(ORIGIN, acts)
    ensures var t := After(ORIGIN, acts);
            && Inv(t) && STUCK in t.rows && t.rows[STUCK].state == Ready && !LocalDependency(STUCK, t.rows[STUCK].dependsOn)
            && IsIntegrated(t, Prerequisite(STUCK, t.rows[STUCK].dependsOn.value))
  {
    hide Inv, History, Runs, After, AfterB, LogOk;
    acts := Queued();
    ReachableIsSound(acts);
    var b := FirstB(After(ORIGIN, acts));
    RunsConcat(ORIGIN, acts, b);
    acts := acts + b;
    ReachableIsSound(acts);
    var s := After(ORIGIN, acts);
    RoomForOneMore(s);
    var more := EnqueueDependent(s, STUCK, 4, ToJob(2), 3);
    RunsConcat(ORIGIN, acts, more);
    acts := acts + more;
    ReachableIsSound(acts);
    ProcessTarget.ReadyRow(After(ORIGIN, acts), STUCK);
  }

  lemma RoomForOneMore(s: Store)
    requires AfterB(s)
    ensures STUCK !in s.rows && 0 !in s.runs && IsNextPosition(s, 0, 4) && IsAncestor(s.commits, 0, 3)
    ensures IsIntegrated(s, Prerequisite(STUCK, ToJob(2)))
  {
    assert s.rows[C].position + 1 == 4;
  }
}
