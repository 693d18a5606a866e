/**
 Why the list-order hypothesis of the integrated history is needed: the integration base is the last INTEGRATED
 row in list order, not in time (argent_core/merge_queue.py).  Three candidates of one queue are
 integrated out of that order, and the third integrated head does not descend from the second.
 */
module OutOfOrder {
  import opened Wrappers
  import opened CommitGraph
  import opened IntegrationOrder
  import opened MergeQueue
  import opened IntegratedHistory

  lemma {:induction false} RunsConcat(s: Store, a: seq<Action>, b: seq<Action>)
    requires Runs(s, a) && Runs(After(s, a), b)
    ensures Runs(s, a + b) && After(s, a + b) == After(After(s, a), b)
    decreases |a|
  {
    hide Enabled, Apply;
    if a == [] {
      assert a + b == b;
    } else {
      assert (a + b)[0] == a[0] && (a + b)[1..] == a[1..] + b;
      RunsConcat(Apply(s, a[0]), a[1..], b);
    }
  }

  function ReadyRow(position: nat, source: Sha): Row {
    Row(position, 0, None, source, 0, Ready, 1, None, None, [Entry(Pending, Ready, None, OtherNote)])
  }

  /** A candidate without a dependency is enqueued and promoted. */
  lemma EnqueueReady(s: Store, key: Key, position: nat, source: Sha) returns (acts: seq<Action>)
    requires key !in s.rows && 0 !in s.runs && IsNextPosition(s, key.queue, position) && IsAncestor(s.commits, 0, source)
    ensures Runs(s, acts) && After(s, acts) == s.(rows := s.rows[key := ReadyRow(position, source)])
  {
    hide IsNextPosition;
    var a, b, c := Enqueue(key, position, None, None, 0, source, 0), Decide(0, key, true), Promote(0);
    var s1 := Apply(s, a);
    var s2 := Apply(s1, b);
    var s3 := Apply(s2, c);
    assert s2.runs - {0} == s.runs;
    assert s1.rows[key := ReadyRow(position, source)] == s.rows[key := ReadyRow(position, source)];
    assert [] + [Entry(Pending, Ready, None, OtherNote)] == [Entry(Pending, Ready, None, OtherNote)];
    assert s3 == s.(rows := s.rows[key := ReadyRow(position, source)]);
    acts := [];
    RunsSnoc(s, acts, a);
    acts := acts + [a];
    RunsSnoc(s, acts, b);
    acts := acts + [b];
    RunsSnoc(s, acts, c);
    acts := acts + [c];
  }

  const A: Key := Key(0, 1)
  const B: Key := Key(0, 2)
  const C: Key := Key(0, 3)
  const HOLDER: Holder := Holder(7, 1)

  /** Three branches off one root. */
  const ORIGIN: Store :=
    Store(map[], map[], map[], map[], map[0 := {0}, 1 := {0, 1}, 2 := {0, 2}, 3 := {0, 3}], map[0 := 0], [])

  /** The three candidates queued in the order A, B, C, all READY, with the holder in place. */
  lemma Queued() returns (acts: seq<Action>)
    ensures Init(ORIGIN) && Runs(ORIGIN, acts)
    ensures After(ORIGIN, acts) == ORIGIN.(rows := map[A := ReadyRow(1, 1), B := ReadyRow(2, 2), C := ReadyRow(3, 3)],
                                           leases := map[7 := 1], locks := map[0 := HOLDER])
  {
    hide Runs, After;
    assert Init(ORIGIN) && Runs(ORIGIN, []) && After(ORIGIN, []) == ORIGIN by { StartsAtOrigin(); }
    acts := [];
    RunsSnoc(ORIGIN, acts, SetLease(7, Some(1)));
    acts := acts + [SetLease(7, Some(1))];
    RunsSnoc(ORIGIN, acts, AcquireLock(0, HOLDER));
    acts := acts + [AcquireLock(0, HOLDER)];
    var a := EnqueueReady(After(ORIGIN, acts), A, 1, 1);
    RunsConcat(ORIGIN, acts, a);
    acts := acts + a;
    var s1 := After(ORIGIN, acts);
    assert s1.rows == map[A := ReadyRow(1, 1)];
    assert IsNextPosition(s1, 0, 2) by { assert s1.rows[A].position + 1 == 2; }
    var b := EnqueueReady(s1, B, 2, 2);
    RunsConcat(ORIGIN, acts, b);
    acts := acts + b;
    var s2 := After(ORIGIN, acts);
    assert s2.rows == map[A := ReadyRow(1, 1), B := ReadyRow(2, 2)];
    assert IsNextPosition(s2, 0, 3) by { assert s2.rows[B].position + 1 == 3; }
    var c := EnqueueReady(s2, C, 3, 3);
    RunsConcat(ORIGIN, acts, c);
    acts := acts + c;
    assert After(ORIGIN, acts).rows == map[A := ReadyRow(1, 1), B := ReadyRow(2, 2), C := ReadyRow(3, 3)];
  }

  lemma StartsAtOrigin()
    ensures Init(ORIGIN) && Runs(ORIGIN, []) && After(ORIGIN, []) == ORIGIN
  {
  }

  lemma ReachableIsSound(acts: seq<Action>)
    requires Init(ORIGIN) && Runs(ORIGIN, acts)
    ensures Inv(After(ORIGIN, acts)) && History(After(ORIGIN, acts))
  {
    hide Inv, History, Runs, After;
    InitHistory(ORIGIN);
    NothingFinished(ORIGIN, 0);
    AllAlongRun(ORIGIN, acts, 0);
  }

  predicate Standing(s: Store) {
    s.rows.Keys == {A, B, C} && s.runs == map[] && s.leases == map[7 := 1] && s.locks == map[0 := HOLDER] && s.tips == map[0 := 0]
  }

  predicate AllQueued(s: Store) {
    && Standing(s) && s.finished == []
    && s.rows[A] == ReadyRow(1, 1) && s.rows[B] == ReadyRow(2, 2) && s.rows[C] == ReadyRow(3, 3)
    && s.commits == map[0 := {0}, 1 := {0, 1}, 2 := {0, 2}, 3 := {0, 3}]
  }

  predicate AfterB(s: Store) {
    && Standing(s) && s.finished == [B]
    && s.rows[A] == ReadyRow(1, 1) && s.rows[C] == ReadyRow(3, 3)
    && s.rows[B].state == Integrated && s.rows[B].position == 2 && s.rows[B].head == Some(10)
    && s.commits == map[0 := {0}, 1 := {0, 1}, 2 := {0, 2}, 3 := {0, 3}, 10 := {10, 0, 2}]
  }

  predicate AfterA(s: Store) {
    && Standing(s) && s.finished == [B, A] && s.rows[C] == ReadyRow(3, 3)
    && s.rows[A].state == Integrated && s.rows[A].position == 1 && s.rows[A].head == Some(11)
    && s.rows[B].state == Integrated && s.rows[B].position == 2 && s.rows[B].head == Some(10)
    && s.commits == map[0 := {0}, 1 := {0, 1}, 2 := {0, 2}, 3 := {0, 3}, 10 := {10, 0, 2}, 11 := {11, 10, 0, 2, 1}]
  }

  lemma RootIsBase(g: Graph, x: Sha, y: Sha)
    requires x in g && y in g && 0 in g && g[0] == {0} && forall m :: Common(g, m, x, y) <==> m == 0
    ensures IsMergeBase(g, Some(0), x, y)
  {
    assert Common(g, 0, x, y);
  }

  lemma TwoParents(g: Graph, sha: Sha, x: Sha, y: Sha)
    requires x in g && y in g
    ensures AddCommit(g, sha, {x, y}) == g[sha := {sha} + g[x] + g[y]]
  {
    var up := AncestorsOf(g, {x, y});
    forall a | a in g[x] + g[y] ensures a in up {
      if a in g[x] { assert x in {x, y}; } else { assert y in {x, y}; }
    }
    assert up == g[x] + g[y];
    assert {sha} + up == {sha} + g[x] + g[y];
  }

  /** B is integrated on the branch tip. */
  lemma FirstB(s: Store) returns (acts: seq<Action>)
    requires Inv(s) && History(s) && AllQueued(s)
    ensures Runs(s, acts) && AfterB(After(s, acts))
  {
    hide Inv, History, Runs, After, IsMergeBase, AddCommit;
    assert forall k :: !IsIntegrated(s, k);
    RootIsBase(s.commits, 0, 2);
    acts := Carry(s, 0, B, HOLDER, 0, Some(0), None, 10);
    TwoParents(s.commits, 10, 0, 2);
    assert {10} + s.commits[0] + s.commits[2] == {10, 0, 2};
  }

  /** Then A, on B's head. */
  lemma ThenA(s: Store) returns (acts: seq<Action>)
    requires Inv(s) && History(s) && AfterB(s)
    ensures Runs(s, acts) && AfterA(After(s, acts))
  {
    hide Inv, History, Runs, After, IsMergeBase, AddCommit;
    assert IsLastListed(s, 0, B);
    RootIsBase(s.commits, 10, 1);
    acts := Carry(s, 0, A, HOLDER, 10, Some(0), Some(false), 11);
    TwoParents(s.commits, 11, 10, 1);
    assert {11} + s.commits[10] + s.commits[1] == {11, 10, 0, 2, 1};
  }

  /** Then C: the last INTEGRATED row in list order is still B, so A's work is left out. */
  lemma ThenC(s: Store) returns (acts: seq<Action>)
    requires Inv(s) && History(s) && AfterA(s)
    ensures Runs(s, acts) && After(s, acts).finished == [B, A, C] && !Descends(After(s, acts), A, C)
  {
    hide Inv, History, Runs, After, IsMergeBase, AddCommit;
    assert IsLastListed(s, 0, B);
    RootIsBase(s.commits, 10, 3);
    acts := Carry(s, 0, C, HOLDER, 10, Some(0), Some(false), 12);
    TwoParents(s.commits, 12, 10, 3);
  }

  /** A reachable store in which the head integrated last does not descend from one integrated before it. */
  lemma OutOfOrderLosesHistory() returns (acts: seq<Action>)
    ensures Init(ORIGIN) && Runs(ORIGIN, acts)
    ensures After(ORIGIN, acts).finished == [B, A, C] && !Descends(After(ORIGIN, acts), A, C)
  {
    hide Inv, History, Runs, After, AfterA, AfterB, Descends;
    acts := Queued();
    ReachableIsSound(acts);
    var b := FirstB(After(ORIGIN, acts));
    RunsConcat(ORIGIN, acts, b);
    acts := acts + b;
    ReachableIsSound(acts);
    var a := ThenA(After(ORIGIN, acts));
    RunsConcat(ORIGIN, acts, a);
    acts := acts + a;
    ReachableIsSound(acts);
    var c := ThenC(After(ORIGIN, acts));
    RunsConcat(ORIGIN, acts, c);
    acts := acts + c;
  }
}
