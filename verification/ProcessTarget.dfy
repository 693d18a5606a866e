/**
 What the merge queue's processing pass gets from the deterministic order
 (`process_target`, argent_core/merge_queue.py).
 */
module ProcessTarget {
  import opened Wrappers
  import opened IntegrationOrder
  import opened MergeQueue

  /** Ids are strings compared as strings: an injective coding of references into ordered ids. */
  ghost predicate Injective(code: Ref -> nat) {
    forall a, b :: code(a) == code(b) ==> a == b
  }

  function Listed(s: Store, key: Key, code: Ref -> nat): Candidate
    requires key in s.rows
  {
    var r := s.rows[key];
    Candidate(code(ToCandidate(key)), r.state, if r.dependsOn.Some? then Some(code(r.dependsOn.value)) else None, r.position, r.priority)
  }

  ghost predicate IsRowOf(s: Store, queue: nat, code: Ref -> nat, c: Candidate, key: Key) {
    key in s.rows && key.queue == queue && c == Listed(s, key, code)
  }

  /** `cs` lists exactly the rows of the queue. */
  ghost predicate Lists(s: Store, queue: nat, code: Ref -> nat, cs: seq<Candidate>) {
    DistinctIds(cs) && forall c :: c in cs <==> exists key :: IsRowOf(s, queue, code, c, key)
  }

  function IntegratedIds(s: Store, queue: nat, code: Ref -> nat): set<nat> {
    set key | key in s.rows && key.queue == queue && s.rows[key].state == Integrated :: code(ToCandidate(key))
  }

  /** The dependency, if any, is recorded as the id of a candidate of the same queue. */
  predicate LocalDependency(key: Key, dependsOn: Option<Ref>) {
    dependsOn.Some? ==> dependsOn.value.ToCandidate? && dependsOn.value.key.queue == key.queue
  }

  lemma LocalIsSatisfied(s: Store, queue: nat, code: Ref -> nat, cs: seq<Candidate>, key: Key)
    requires Inv(s) && Lists(s, queue, code, cs)
    requires key in s.rows && key.queue == queue && s.rows[key].state == Ready && LocalDependency(key, s.rows[key].dependsOn)
    ensures Satisfied(cs, IntegratedIds(s, queue, code), Listed(s, key, code))
  {
    assert RowOk(s, key);
    if s.rows[key].dependsOn.Some? {
      var k := s.rows[key].dependsOn.value.key;
      assert code(ToCandidate(k)) in IntegratedIds(s, queue, code);
    }
  }

  lemma ForeignNeverSatisfied(s: Store, queue: nat, code: Ref -> nat, cs: seq<Candidate>, key: Key)
    requires Injective(code) && Lists(s, queue, code, cs)
    requires key in s.rows && key.queue == queue && !LocalDependency(key, s.rows[key].dependsOn)
    ensures var c := Listed(s, key, code);
            && !Satisfied(cs, IntegratedIds(s, queue, code), c) && !HasReadyDependency(cs, c)
            && !Grounded(cs, IntegratedIds(s, queue, code), c)
  {
    var c := Listed(s, key, code);
    forall d | d in cs ensures d.id != c.dependsOn.value {
      var k :| IsRowOf(s, queue, code, d, k);
    }
  }

  /** The outcome of a processing pass over any reachable store: nothing is ever blocked, the order holds
      exactly the READY candidates without a dependency or with one recorded as a candidate of the same
      queue, and it is simply sorted by the heap order. */
  lemma PassOrder(s: Store, queue: nat, code: Ref -> nat, cs: seq<Candidate>, order: seq<Candidate>)
    requires Inv(s) && Injective(code) && Lists(s, queue, code, cs)
    requires IsGreedy(cs, IntegratedIds(s, queue, code), order)
    ensures forall key | key in s.rows && key.queue == queue && s.rows[key].state == Ready ::
              Listed(s, key, code) in order <==> LocalDependency(key, s.rows[key].dependsOn)
    ensures forall c | c in cs && c.state == Ready && c !in order :: !HasReadyDependency(cs, c)
    ensures forall i, j | 0 <= i < j < |order| :: Before(order[i], order[j])
  {
    hide IsGreedy, Before;
    var ids := IntegratedIds(s, queue, code);
    OrderedIffGrounded(cs, ids, order);
    forall key | key in s.rows && key.queue == queue && s.rows[key].state == Ready
      ensures Listed(s, key, code) in order <==> LocalDependency(key, s.rows[key].dependsOn)
      ensures Listed(s, key, code) !in order ==> !HasReadyDependency(cs, Listed(s, key, code))
      ensures Listed(s, key, code) in order ==> Satisfied(cs, ids, Listed(s, key, code))
    {
      var c := Listed(s, key, code);
      assert IsRowOf(s, queue, code, c, key);
      if LocalDependency(key, s.rows[key].dependsOn) {
        LocalIsSatisfied(s, queue, code, cs, key);
        assert GroundedIn(cs, ids, c, 0);
      } else {
        ForeignNeverSatisfied(s, queue, code, cs, key);
      }
    }
    forall c | c in cs && c.state == Ready && c !in order ensures !HasReadyDependency(cs, c) {
      var key :| IsRowOf(s, queue, code, c, key);
    }
    forall c | c in order ensures Satisfied(cs, ids, c) {
      var n: nat :| GroundedIn(cs, ids, c, n);
      var key :| IsRowOf(s, queue, code, c, key);
    }
    forall i, j | 0 <= i < j < |order| ensures Before(order[i], order[j]) {
      SatisfiedInKeyOrder(cs, ids, order, i, j);
    }
  }

  lemma SatisfiedInKeyOrder(cs: seq<Candidate>, ids: set<nat>, order: seq<Candidate>, i: nat, j: nat)
    requires IsGreedy(cs, ids, order) && DistinctIds(order) && i < j < |order|
    requires forall c :: c in order ==> Satisfied(cs, ids, c)
    ensures Before(order[i], order[j])
  {
    hide Satisfied;
    assert IsNext(cs, ids, IdsOf(order[..i]), order[i]);
    assert IsNext(cs, ids, IdsOf(order[..j]), order[j]);
    assert order[j].id !in IdsOf(order[..i]);
    assert Available(cs, ids, IdsOf(order[..i]), order[j]);
  }

  /** A dependency recorded as a bare job id, or as a candidate of another target, lets the candidate
      become READY but never be ordered: every later pass defers it, although its prerequisite is INTEGRATED. */
  lemma DeferredForever(s: Store, acts: seq<Action>, queue: nat, code: Ref -> nat, key: Key, cs: seq<Candidate>, order: seq<Candidate>)
    requires Inv(s) && Runs(s, acts) && key in s.rows && key.queue == queue
    requires s.rows[key].state == Ready && !LocalDependency(key, s.rows[key].dependsOn)
    requires var t := After(s, acts);
             Injective(code) && Lists(t, queue, code, cs) && IsGreedy(cs, IntegratedIds(t, queue, code), order)
    ensures IsIntegrated(s, Prerequisite(key, s.rows[key].dependsOn.value))
    ensures key in After(s, acts).rows && Listed(After(s, acts), key, code) !in order
  {
    hide Runs, After, IsGreedy, Inv;
    InvAlongRun(s, acts);
    ReadyRow(s, key);
    var t := After(s, acts);
    OrderedIffGrounded(cs, IntegratedIds(t, queue, code), order);
    ForeignNeverSatisfied(t, queue, code, cs, key);
  }

  lemma ReadyRow(s: Store, key: Key)
    requires Inv(s) && key in s.rows && s.rows[key].state == Ready
    ensures DependencySatisfied(s, key)
  {
    assert RowOk(s, key);
  }
}
