/** One whole processing pass over a queue (`process_target`, argent_core/merge_queue.py). */
module QueuePass {
  import opened Wrappers
  import opened IntegrationOrder
  import opened MergeQueue
  import opened MergeQueueDriver
  import opened ProcessTarget

  /** The listed rows as order candidates. */
  method AsCandidates(s: Store, queue: nat, code: Ref -> nat, keys: seq<Key>) returns (cs: seq<Candidate>)
    requires Injective(code) && ListsQueue(s, queue, keys)
    ensures Lists(s, queue, code, cs) && |cs| == |keys|
    ensures forall i :: 0 <= i < |cs| ==> keys[i] in s.rows && cs[i] == Listed(s, keys[i], code)
  {
    hide Injective;
    cs := [];
    for n := 0 to |keys|
      invariant |cs| == n && forall i :: 0 <= i < n ==> cs[i] == Listed(s, keys[i], code)
    {
      cs := cs + [Listed(s, keys[n], code)];
    }
    ListingIsFaithful(s, queue, code, keys, cs);
  }

  lemma CodesDiffer(code: Ref -> nat, a: Key, b: Key)
    requires Injective(code) && a != b
    ensures code(ToCandidate(a)) != code(ToCandidate(b))
  {
  }

  lemma ListingIsFaithful(s: Store, queue: nat, code: Ref -> nat, keys: seq<Key>, cs: seq<Candidate>)
    requires Injective(code) && ListsQueue(s, queue, keys) && |cs| == |keys|
    requires forall i :: 0 <= i < |cs| ==> keys[i] in s.rows && cs[i] == Listed(s, keys[i], code)
    ensures Lists(s, queue, code, cs)
  {
    forall i, j | 0 <= i < j < |cs| ensures cs[i].id != cs[j].id {
      assert ListedBefore(s, keys[i], keys[j]);
      CodesDiffer(code, keys[i], keys[j]);
    }
    forall c ensures c in cs <==> exists key :: IsRowOf(s, queue, code, c, key) {
      if c in cs {
        var i :| 0 <= i < |cs| && cs[i] == c;
        assert IsRowOf(s, queue, code, c, keys[i]);
      }
      if key :| IsRowOf(s, queue, code, c, key) {
        var i :| 0 <= i < |keys| && keys[i] == key;
        assert cs[i] == c;
      }
    }
  }

  /** Row `key` is what candidate `c` was listed from. */
  ghost predicate Backs(keys: seq<Key>, cs: seq<Candidate>, c: Candidate, key: Key) {
    exists k :: 0 <= k < |keys| && k < |cs| && cs[k] == c && keys[k] == key
  }

  /** The rows behind the ordered candidates. */
  method KeysOf(keys: seq<Key>, cs: seq<Candidate>, order: seq<Candidate>) returns (r: seq<Key>)
    requires |cs| == |keys| && forall c :: c in order ==> c in cs
    ensures |r| == |order| && forall i :: 0 <= i < |order| ==> Backs(keys, cs, order[i], r[i])
  {
    r := [];
    for i := 0 to |order|
      invariant |r| == i && forall j :: 0 <= j < i ==> Backs(keys, cs, order[j], r[j])
    {
      assert order[i] in order;
      var k :| 0 <= k < |cs| && cs[k] == order[i];
      r := r + [keys[k]];
    }
  }

  datatype PassResult = TargetLocked | PassRaised | Passed(p: Processed, blocked: seq<Candidate>)

  /** The rows the pass works through: the READY ones of the queue whose dependency is recorded as a candidate of it,
      in the order of position, descending priority and id. */
  ghost predicate IsTodo(s: Store, queue: nat, code: Ref -> nat, todo: seq<Key>) {
    && (forall k :: k in todo ==> k in s.rows)
    && (forall k :: k in todo <==> k in s.rows && k.queue == queue && s.rows[k].state == Ready && LocalDependency(k, s.rows[k].dependsOn))
    && (forall i, j | 0 <= i < j < |todo| :: Before(Listed(s, todo[i], code), Listed(s, todo[j], code)))
  }

  /** Evaluate, order, integrate.  Nothing is ever reported blocked, the candidates are taken in the one order there is,
      the report counts their outcomes up to the first that stops the pass, and every candidate reported INTEGRATED is. */
  method ProcessQueue(runner: MergeQueueRunner, env: Environment, rid: nat, queue: nat, holder: Holder, code: Ref -> nat,
                      reviewOk: Key -> bool, answers: Key -> Answers)
    returns (result: PassResult, ghost at: Store, ghost todo: seq<Key>, ghost outs: seq<Outcome>)
    requires env.Valid() && rid !in env.store.runs && Injective(code)
    modifies env
    ensures env.Valid() && env.origin == old(env.origin) && MergeQueue.Grows(old(env.store), env.store) && rid !in env.store.runs
    ensures !HoldsLease(old(env.store), holder) ==> result == PassRaised && env.store == old(env.store)
    ensures result == TargetLocked <==> HoldsLease(old(env.store), holder) && LockedByOther(old(env.store), queue, holder)
    ensures result == TargetLocked ==> env.store == old(env.store)
    ensures result.Passed? ==>
              && MergeQueue.Grows(old(env.store), at) && IsTodo(at, queue, code, todo) && |outs| <= |todo|
              && result == Passed(Tally(todo[..|outs|], outs), []) && !result.p.raised
              && (forall i :: 0 <= i < |outs| && Stops(outs[i]) ==> i == |outs| - 1)
              && (|outs| < |todo| ==> outs != [] && Stops(outs[|outs|-1]))
              && (forall k :: k in result.p.integrated ==> IsIntegrated(env.store, k) && k.queue == queue)
  {
    hide Inv, Runs, MergeQueue.After, MergeQueue.Grows, ClosedBy, IsGreedy, Injective, Grounded, Lists, ListsQueue, HasReadyDependency,
         HoldsLease, IsTodo, StepsOf, Apply, Enabled;
    GrowsSelf(env.store);
    result, at, todo, outs := PassRaised, env.store, [], [];
    if !HoldsLease(env.store, holder) { return; }
    if LockedByOther(env.store, queue, holder) {
      result := TargetLocked;
      return;
    }
    AcquireEnabled(env.store, queue, holder);
    env.Perform(AcquireLock(queue, holder));
    label L:
    var raised := runner.EvaluateAll(env, rid, queue, reviewOk);
    label M:
    GrowsTrans(old(env.store), old@L(env.store), env.store);
    if !raised {
      at := env.store;
      var work, blocked := OrderQueue(env.store, queue, code);
      todo := work;
      assert forall k :: k in work ==> k in env.store.rows && k.queue == queue by { TodoAreRows(at, queue, code, todo); }
      var p;
      p, outs := runner.IntegrateInOrder(env, rid, work, holder, answers);
      GrowsTrans(old(env.store), old@M(env.store), env.store);
      result := if p.raised then PassRaised else Passed(p, blocked);
    }
    label N:
    AcquireEnabled(env.store, queue, holder);
    env.Perform(ReleaseLock(queue, holder));
    GrowsTrans(old(env.store), old@N(env.store), env.store);
    if result.Passed? {
      forall k | k in result.p.integrated ensures IsIntegrated(env.store, k) {
        StaysIntegrated(old@N(env.store), env.store, k);
      }
    }
  }

  predicate LockedByOther(s: Store, queue: nat, holder: Holder) {
    queue in s.locks && s.locks[queue] != holder && HoldsLease(s, s.locks[queue])
  }

  /** The order of one pass. */
  method OrderQueue(s: Store, queue: nat, code: Ref -> nat) returns (todo: seq<Key>, blocked: seq<Candidate>)
    requires Inv(s) && Injective(code)
    ensures IsTodo(s, queue, code, todo) && blocked == []
  {
    hide Inv, IsGreedy, Injective, Grounded, Lists, ListsQueue, HasReadyDependency, IsTodo;
    var keys := ListCandidates(s, queue);
    var cs := AsCandidates(s, queue, code, keys);
    var ids := IntegratedIds(s, queue, code);
    assert DistinctIds(cs) by { ListsDistinct(s, queue, code, cs); }
    var outcome := DeterministicOrder(cs, ids);
    PassOrder(s, queue, code, cs, outcome.ordered);
    NothingBlocked(cs, ids, outcome);
    blocked := outcome.blocked;
    OrderedAreListed(cs, ids, outcome.ordered);
    todo := KeysOf(keys, cs, outcome.ordered);
    BackedIsTodo(s, queue, code, keys, cs, ids, outcome.ordered, todo);
  }

  lemma TodoAreRows(s: Store, queue: nat, code: Ref -> nat, todo: seq<Key>)
    requires IsTodo(s, queue, code, todo)
    ensures forall k :: k in todo ==> k in s.rows && k.queue == queue
  {
  }

  lemma BackedIsTodo(s: Store, queue: nat, code: Ref -> nat, keys: seq<Key>, cs: seq<Candidate>, ids: set<nat>, order: seq<Candidate>, todo: seq<Key>)
    requires ListsQueue(s, queue, keys) && |cs| == |keys| && forall i :: 0 <= i < |cs| ==> keys[i] in s.rows && cs[i] == Listed(s, keys[i], code)
    requires |todo| == |order| && forall i :: 0 <= i < |order| ==> Backs(keys, cs, order[i], todo[i])
    requires Injective(code) && forall c :: c in order <==> Grounded(cs, ids, c)
    requires forall key | key in s.rows && key.queue == queue && s.rows[key].state == Ready ::
               Listed(s, key, code) in order <==> LocalDependency(key, s.rows[key].dependsOn)
    requires forall i, j | 0 <= i < j < |order| :: Before(order[i], order[j])
    ensures IsTodo(s, queue, code, todo)
  {
    hide Before, Grounded, LocalDependency, ListsQueue, Injective;
    KeysAreRows(s, queue, keys, todo, cs, order);
    forall i | 0 <= i < |todo| ensures todo[i] in s.rows && order[i] == Listed(s, todo[i], code) && s.rows[todo[i]].state == Ready {
      var l :| 0 <= l < |keys| && l < |cs| && cs[l] == order[i] && keys[l] == todo[i];
      assert order[i] in order;
      GroundedIsReady(cs, ids, order[i]);
    }
    forall k | k in s.rows && k.queue == queue && s.rows[k].state == Ready && LocalDependency(k, s.rows[k].dependsOn) ensures k in todo {
      var i :| 0 <= i < |order| && order[i] == Listed(s, k, code);
      if todo[i] != k {
        CodesDiffer(code, todo[i], k);
      }
    }
  }

  lemma GroundedIsReady(cs: seq<Candidate>, ids: set<nat>, c: Candidate)
    requires Grounded(cs, ids, c)
    ensures c in cs && c.state == Ready
  {
    var n: nat :| GroundedIn(cs, ids, c, n);
  }

  lemma AcquireEnabled(s: Store, queue: nat, holder: Holder)
    ensures HoldsLease(s, holder) ==> Enabled(s, AcquireLock(queue, holder)) && Apply(s, AcquireLock(queue, holder)).runs == s.runs
    ensures Enabled(s, ReleaseLock(queue, holder)) && Apply(s, ReleaseLock(queue, holder)).runs == s.runs
  {
  }

  lemma ListsDistinct(s: Store, queue: nat, code: Ref -> nat, cs: seq<Candidate>)
    requires Lists(s, queue, code, cs)
    ensures DistinctIds(cs)
  {
  }

  lemma NothingBlocked(cs: seq<Candidate>, ids: set<nat>, outcome: OrderOutcome)
    requires forall c | c in cs && c.state == Ready && c !in outcome.ordered :: !HasReadyDependency(cs, c)
    requires forall c :: c in outcome.ordered <==> Grounded(cs, ids, c)
    requires forall c :: c in outcome.blocked ==> c in cs && c.state == Ready && !Grounded(cs, ids, c) && HasReadyDependency(cs, c)
    ensures outcome.blocked == []
  {
    hide HasReadyDependency, Grounded;
    if outcome.blocked != [] {
      FirstIsMember(outcome.blocked);
    }
  }

  lemma FirstIsMember(s: seq<Candidate>)
    requires s != []
    ensures s[0] in s
  {
  }

  lemma OrderedAreListed(cs: seq<Candidate>, ids: set<nat>, order: seq<Candidate>)
    requires forall c :: c in order <==> Grounded(cs, ids, c)
    ensures forall c :: c in order ==> c in cs
  {
  }

  lemma KeysAreRows(s: Store, queue: nat, keys: seq<Key>, todo: seq<Key>, cs: seq<Candidate>, order: seq<Candidate>)
    requires ListsQueue(s, queue, keys) && |cs| == |keys| && |todo| == |order|
    requires forall i :: 0 <= i < |order| ==> Backs(keys, cs, order[i], todo[i])
    ensures forall k :: k in todo ==> k in s.rows && k.queue == queue
  {
    forall k | k in todo ensures k in s.rows && k.queue == queue {
      var i :| 0 <= i < |todo| && todo[i] == k;
      var l :| 0 <= l < |keys| && l < |cs| && cs[l] == order[i] && keys[l] == todo[i];
      assert keys[l] in keys;
    }
  }
}
