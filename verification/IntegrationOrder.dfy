// argent_core/integration_candidate.py: the integration order
module IntegrationOrder {
  /*
   The deterministic integration order (argent_core/integration_candidate.py).

   Candidate ids are fixed-length digests, so comparing them as strings is comparing numbers of that
   length; they are the primary key of the candidate table.
   */
  import opened Wrappers

  datatype CandidateState = Pending | Ready | Integrating | Integrated | Stale | Conflicted | Failed | Blocked

  datatype Candidate = Candidate(id: nat, state: CandidateState, dependsOn: Option<nat>, queuePosition: int, priority: int)

  // ------------------------------------------------------------------ specification

  predicate DistinctIds(cs: seq<Candidate>) {
    forall i, j :: 0 <= i < j < |cs| ==> cs[i].id != cs[j].id
  }

  /** The heap order: queue position, then higher priority, then id.  The stale component of the
      source's key is constant here, because only READY candidates are ever pushed. */
  predicate Before(a: Candidate, b: Candidate) {
    || a.queuePosition < b.queuePosition
    || (a.queuePosition == b.queuePosition && (a.priority > b.priority || (a.priority == b.priority && a.id < b.id)))
  }

  predicate Satisfied(cs: seq<Candidate>, integrated: set<nat>, c: Candidate) {
    || c.dependsOn == None
    || c.dependsOn.value in integrated
    || exists d :: d in cs && d.id == c.dependsOn.value && d.state == Integrated
  }

  function IdsOf(s: seq<Candidate>): set<nat> {
    set c | c in s :: c.id
  }

  /** `c` may come next once the candidates `placed` have been ordered. */
  predicate Available(cs: seq<Candidate>, integrated: set<nat>, placed: set<nat>, c: Candidate) {
    && c in cs && c.state == Ready && c.id !in placed
    && (Satisfied(cs, integrated, c) || c.dependsOn.value in placed)
  }

  ghost predicate IsNext(cs: seq<Candidate>, integrated: set<nat>, placed: set<nat>, c: Candidate) {
    && Available(cs, integrated, placed, c)
    && forall d :: Available(cs, integrated, placed, d) ==> d == c || Before(c, d)
  }

  /** The reference order: always the least available candidate, until none is left. */
  ghost predicate IsGreedy(cs: seq<Candidate>, integrated: set<nat>, order: seq<Candidate>) {
    && (forall i :: 0 <= i < |order| ==> IsNext(cs, integrated, IdsOf(order[..i]), order[i]))
    && (forall c :: !Available(cs, integrated, IdsOf(order), c))
  }

  /** A sequence in which every candidate comes after its prerequisite. */
  ghost predicate Respects(cs: seq<Candidate>, integrated: set<nat>, s: seq<Candidate>) {
    forall i :: 0 <= i < |s| ==> Available(cs, integrated, IdsOf(s[..i]), s[i])
  }

  /** The chain of prerequisites of `c` ends in a satisfied one after at most `n` READY candidates. */
  predicate GroundedIn(cs: seq<Candidate>, integrated: set<nat>, c: Candidate, n: nat)
    decreases n
  {
    && c in cs && c.state == Ready
    && (Satisfied(cs, integrated, c)
        || (n > 0 && exists d :: d in cs && d.id == c.dependsOn.value && GroundedIn(cs, integrated, d, n - 1)))
  }

  ghost predicate Grounded(cs: seq<Candidate>, integrated: set<nat>, c: Candidate) {
    exists n: nat :: GroundedIn(cs, integrated, c, n)
  }

  predicate HasReadyDependency(cs: seq<Candidate>, c: Candidate) {
    c.dependsOn.Some? && exists d :: d in cs && d.id == c.dependsOn.value && d.state == Ready
  }

  // ------------------------------------------------------------------ the order

  lemma IdsOfSnoc(s: seq<Candidate>, c: Candidate)
    ensures IdsOf(s + [c]) == IdsOf(s) + {c.id}
  {
    assert c in s + [c];
    forall d | d in s ensures d.id in IdsOf(s + [c]) {
      assert d in s + [c];
    }
  }

  /** Exactly the grounded candidates are ordered, each once. */
  lemma OrderedIffGrounded(cs: seq<Candidate>, integrated: set<nat>, order: seq<Candidate>)
    requires DistinctIds(cs) && IsGreedy(cs, integrated, order)
    ensures forall c :: c in order <==> Grounded(cs, integrated, c)
    ensures DistinctIds(order)
  {
    forall c | c in order ensures Grounded(cs, integrated, c) {
      var i :| 0 <= i < |order| && order[i] == c;
      OrderedIsGrounded(cs, integrated, order, i);
    }
    forall c | Grounded(cs, integrated, c) ensures c in order {
      var n: nat :| GroundedIn(cs, integrated, c, n);
      GroundedIsOrdered(cs, integrated, order, c, n);
    }
    forall i, j | 0 <= i < j < |order| ensures order[i].id != order[j].id {
      assert order[i] in order[..j];
      assert IsNext(cs, integrated, IdsOf(order[..j]), order[j]);
    }
  }

  lemma {:induction false} OrderedIsGrounded(cs: seq<Candidate>, integrated: set<nat>, order: seq<Candidate>, i: nat)
    requires DistinctIds(cs) && IsGreedy(cs, integrated, order) && i < |order|
    ensures Grounded(cs, integrated, order[i])
  {
    var c := order[i];
    assert IsNext(cs, integrated, IdsOf(order[..i]), c);
    if Satisfied(cs, integrated, c) {
      assert GroundedIn(cs, integrated, c, 0);
    } else {
      var d :| d in order[..i] && d.id == c.dependsOn.value;
      var j :| 0 <= j < i && order[j] == d;
      OrderedIsGrounded(cs, integrated, order, j);
      var n: nat :| GroundedIn(cs, integrated, d, n);
      assert GroundedIn(cs, integrated, c, n + 1);
    }
  }

  lemma {:induction false} GroundedIsOrdered(cs: seq<Candidate>, integrated: set<nat>, order: seq<Candidate>, c: Candidate, n: nat)
    requires DistinctIds(cs) && IsGreedy(cs, integrated, order) && GroundedIn(cs, integrated, c, n)
    ensures c in order
    decreases n
  {
    if !Satisfied(cs, integrated, c) {
      var d :| d in cs && d.id == c.dependsOn.value && GroundedIn(cs, integrated, d, n - 1);
      GroundedIsOrdered(cs, integrated, order, d, n - 1);
    }
    assert !Available(cs, integrated, IdsOf(order), c);
    var e :| e in order && e.id == c.id;
    var i :| 0 <= i < |order| && order[i] == e;
    assert IsNext(cs, integrated, IdsOf(order[..i]), order[i]);
  }

  lemma FirstDifference(a: seq<Candidate>, b: seq<Candidate>) returns (i: nat)
    ensures i <= |a| && i <= |b| && a[..i] == b[..i]
    ensures i < |a| && i < |b| ==> a[i] != b[i]
  {
    i := 0;
    while i < |a| && i < |b| && a[i] == b[i]
      invariant i <= |a| && i <= |b| && a[..i] == b[..i]
    {
      i := i + 1;
    }
  }

  lemma NothingToAdd(cs: seq<Candidate>, integrated: set<nat>, order: seq<Candidate>, other: seq<Candidate>)
    requires IsGreedy(cs, integrated, order) && Respects(cs, integrated, other) && order <= other
    ensures order == other
  {
    hide Available, IdsOf;
    assert other[..|order|] == order;
  }

  /** The order is the lexicographically least one: any other sequence that respects the dependencies
      is a prefix of it, or first differs at a candidate that comes later in the heap order. */
  lemma LexicographicallyLeast(cs: seq<Candidate>, integrated: set<nat>, order: seq<Candidate>, other: seq<Candidate>)
    requires IsGreedy(cs, integrated, order) && Respects(cs, integrated, other)
    ensures other <= order
            || exists i :: 0 <= i < |order| && i < |other| && other[..i] == order[..i] && Before(order[i], other[i])
  {
    hide Available, IdsOf, Before;
    var i := FirstDifference(order, other);
    if i == |order| {
      NothingToAdd(cs, integrated, order, other);
    } else if i < |other| {
      assert Available(cs, integrated, IdsOf(other[..i]), other[i]);
      assert IsNext(cs, integrated, IdsOf(other[..i]), order[i]);
    }
  }

  /** The order depends only on which candidates there are, not on how they are listed. */
  lemma OrderIgnoresListing(cs: seq<Candidate>, ds: seq<Candidate>, integrated: set<nat>, a: seq<Candidate>, b: seq<Candidate>)
    requires forall c :: c in cs <==> c in ds
    requires IsGreedy(cs, integrated, a) && IsGreedy(ds, integrated, b)
    ensures a == b
  {
    forall placed, c ensures Available(cs, integrated, placed, c) == Available(ds, integrated, placed, c) {
    }
    assert Respects(cs, integrated, a) && Respects(cs, integrated, b) by {
      forall i | 0 <= i < |a| ensures Available(cs, integrated, IdsOf(a[..i]), a[i]) {
        assert IsNext(cs, integrated, IdsOf(a[..i]), a[i]);
      }
      forall i | 0 <= i < |b| ensures Available(cs, integrated, IdsOf(b[..i]), b[i]) {
        assert IsNext(ds, integrated, IdsOf(b[..i]), b[i]);
      }
    }
    LexicographicallyLeast(cs, integrated, a, b);
    LexicographicallyLeast(ds, integrated, b, a);
  }

  // ------------------------------------------------------------------ the algorithm

  datatype OrderOutcome = OrderOutcome(ordered: seq<Candidate>, deferred: seq<Candidate>, blocked: seq<Candidate>)

  /** The READY candidates that wait for the READY candidate `id`, in listing order. */
  function Waiting(cs: seq<Candidate>, integrated: set<nat>, rs: seq<Candidate>, id: nat): (w: seq<Candidate>)
    ensures forall c :: c in w <==> c in rs && !Satisfied(cs, integrated, c) && c.dependsOn.value == id
  {
    if rs == [] then []
    else
      var c := rs[|rs|-1];
      var w := Waiting(cs, integrated, rs[..|rs|-1], id);
      assert rs == rs[..|rs|-1] + [c];
      if !Satisfied(cs, integrated, c) && c.dependsOn.value == id then w + [c] else w
  }

  lemma {:induction false} WaitingDistinct(cs: seq<Candidate>, integrated: set<nat>, rs: seq<Candidate>, id: nat)
    requires DistinctIds(rs)
    ensures DistinctIds(Waiting(cs, integrated, rs, id))
  {
    if rs != [] {
      var init := rs[..|rs|-1];
      WaitingDistinct(cs, integrated, init, id);
      assert forall c | c in Waiting(cs, integrated, init, id) :: c in init && c.id != rs[|rs|-1].id;
    }
  }

  /** The READY candidates, as listed. */
  function ReadyList(cs: seq<Candidate>): (ready: seq<Candidate>)
    ensures forall c :: c in ready <==> c in cs && c.state == Ready
  {
    if cs == [] then []
    else
      var last := cs[|cs|-1];
      assert cs == cs[..|cs|-1] + [last];
      ReadyList(cs[..|cs|-1]) + (if last.state == Ready then [last] else [])
  }

  lemma {:induction false} ReadyAreDistinct(cs: seq<Candidate>)
    requires DistinctIds(cs)
    ensures DistinctIds(ReadyList(cs))
  {
    if cs != [] {
      var init, last := cs[..|cs|-1], cs[|cs|-1];
      ReadyAreDistinct(init);
      assert forall c | c in ReadyList(init) :: c in init && c.id != last.id;
    }
  }

  method ReadyOnly(cs: seq<Candidate>) returns (ready: seq<Candidate>)
    requires DistinctIds(cs)
    ensures ready == ReadyList(cs)
    ensures DistinctIds(ready) && forall c :: c in ready <==> c in cs && c.state == Ready
  {
    hide DistinctIds;
    ready := [];
    for i := 0 to |cs|
      invariant ready == ReadyList(cs[..i])
    {
      assert cs[..i + 1][..i] == cs[..i];
      if cs[i].state == Ready {
        ready := ready + [cs[i]];
      }
    }
    assert cs[..|cs|] == cs;
    ReadyAreDistinct(cs);
  }

  /** One pop of the priority heap: the least entry, and the rest. */
  method PopLeast(heap: seq<Candidate>) returns (least: Candidate, rest: seq<Candidate>)
    requires heap != [] && DistinctIds(heap)
    ensures least in heap && forall d :: d in heap ==> d == least || Before(least, d)
    ensures DistinctIds(rest) && forall d :: d in rest <==> d in heap && d != least
    ensures |rest| == |heap| - 1
  {
    var k := 0;
    for i := 1 to |heap|
      invariant k < i && forall j :: 0 <= j < i ==> j == k || Before(heap[k], heap[j])
    {
      if Before(heap[i], heap[k]) {
        k := i;
      }
    }
    least := heap[k];
    rest := heap[..k] + heap[k + 1..];
    forall d ensures d in rest <==> d in heap && d != least {
      if d in heap && d != least {
        var j :| 0 <= j < |heap| && heap[j] == d;
        assert if j < k then rest[j] == d else rest[j - 1] == d;
      }
    }
  }

  method SatisfiedNow(cs: seq<Candidate>, integrated: set<nat>, c: Candidate) returns (yes: bool)
    ensures yes == Satisfied(cs, integrated, c) && (!yes ==> c.dependsOn.Some?)
  {
    if c.dependsOn == None || c.dependsOn.value in integrated {
      return true;
    }
    for i := 0 to |cs|
      invariant forall j :: 0 <= j < i ==> !(cs[j].id == c.dependsOn.value && cs[j].state == Integrated)
    {
      if cs[i].id == c.dependsOn.value && cs[i].state == Integrated {
        return true;
      }
    }
    yes := false;
  }

  lemma EarlierIdsDiffer(s: seq<Candidate>, i: nat)
    requires DistinctIds(s) && i < |s|
    ensures forall d | d in s[..i] :: d.id != s[i].id
  {
  }

  /** The edges: who waits for whom, and for how many. */
  method BuildGraph(cs: seq<Candidate>, integrated: set<nat>, ready: seq<Candidate>)
    returns (dependents: map<nat, seq<Candidate>>, indegree: map<nat, int>)
    requires DistinctIds(ready)
    ensures forall c :: c in ready ==>
              c.id in indegree && indegree[c.id] == if Satisfied(cs, integrated, c) then 0 else 1
    ensures forall id: nat :: (if id in dependents then dependents[id] else []) == Waiting(cs, integrated, ready, id)
  {
    hide Satisfied, DistinctIds;
    dependents := map[];
    indegree := map[];
    for i := 0 to |ready|
      invariant forall c :: c in ready[..i] ==>
                  c.id in indegree && indegree[c.id] == if Satisfied(cs, integrated, c) then 0 else 1
      invariant forall id: nat :: (if id in dependents then dependents[id] else []) == Waiting(cs, integrated, ready[..i], id)
    {
      var c := ready[i];
      assert ready[..i + 1][..i] == ready[..i];
      EarlierIdsDiffer(ready, i);
      assert ready[..i + 1] == ready[..i] + [c];
      var satisfied := SatisfiedNow(cs, integrated, c);
      if satisfied {
        indegree := indegree[c.id := 0];
      } else {
        var dep := c.dependsOn.value;
        indegree := indegree[c.id := 1];
        dependents := dependents[dep := (if dep in dependents then dependents[dep] else []) + [c]];
      }
    }
    assert ready[..|ready|] == ready;
  }

  predicate Counts(cs: seq<Candidate>, integrated: set<nat>, ready: seq<Candidate>, placed: set<nat>, indegree: map<nat, int>) {
    forall c | c in ready ::
      c.id in indegree && indegree[c.id] == if Satisfied(cs, integrated, c) || c.dependsOn.value in placed then 0 else 1
  }

  /** Where the loop stands: the heap is what may come next, and the counts say what still waits. */
  ghost predicate KahnState(cs: seq<Candidate>, integrated: set<nat>, ready: seq<Candidate>, ordered: seq<Candidate>,
                            heap: seq<Candidate>, indegree: map<nat, int>)
  {
    && DistinctIds(heap) && (forall c :: c in heap <==> Available(cs, integrated, IdsOf(ordered), c))
    && Counts(cs, integrated, ready, IdsOf(ordered), indegree)
    && (forall c :: c in ordered ==> c in ready)
    && (forall i :: 0 <= i < |ordered| ==> IsNext(cs, integrated, IdsOf(ordered[..i]), ordered[i]))
  }

  /** Taking the least heap entry: its dependents are freed and pushed. */
  method Release(cs: seq<Candidate>, integrated: set<nat>, ready: seq<Candidate>, ghost ordered: seq<Candidate>,
                 waiting: seq<Candidate>, rest: seq<Candidate>, indegree: map<nat, int>, ghost c: Candidate)
    returns (heap: seq<Candidate>, indegree': map<nat, int>)
    requires DistinctIds(ready) && waiting == Waiting(cs, integrated, ready, c.id) && c.id !in IdsOf(ordered)
    requires DistinctIds(rest) && forall d :: d in rest ==> d in ready && d.id in indegree && indegree[d.id] == 0
    requires Counts(cs, integrated, ready, IdsOf(ordered), indegree)
    ensures DistinctIds(heap) && forall d :: d in heap <==> d in rest || d in waiting
    ensures forall d :: d in ready ==> d.id in indegree' && indegree'[d.id] == if d in waiting then 0 else indegree[d.id]
  {
    heap, indegree' := rest, indegree;
    WaitingDistinct(cs, integrated, ready, c.id);
    for k := 0 to |waiting|
      invariant DistinctIds(heap) && forall d :: d in heap <==> d in rest || d in waiting[..k]
      invariant forall d :: d in ready ==> d.id in indegree' && indegree'[d.id] == if d in waiting[..k] then 0 else indegree[d.id]
    {
      var d := waiting[k];
      assert d in ready && indegree[d.id] == 1 && d !in waiting[..k] && d !in rest;
      assert waiting[..k + 1] == waiting[..k] + [d];
      assert forall e | e in heap :: e in ready && e.id != d.id;
      indegree' := indegree'[d.id := indegree'[d.id] - 1];
      if indegree'[d.id] == 0 {
        heap := heap + [d];
      }
    }
    assert waiting[..|waiting|] == waiting;
  }

  /** One round of the loop keeps its meaning. */
  lemma KahnStep(cs: seq<Candidate>, integrated: set<nat>, ready: seq<Candidate>, ordered: seq<Candidate>,
                 heap: seq<Candidate>, indegree: map<nat, int>, c: Candidate, heap': seq<Candidate>, indegree': map<nat, int>)
    requires DistinctIds(cs) && (forall d :: d in ready <==> d in cs && d.state == Ready)
    requires KahnState(cs, integrated, ready, ordered, heap, indegree)
    requires c in heap && forall d :: d in heap ==> d == c || Before(c, d)
    requires DistinctIds(heap')
    requires forall d :: d in heap' <==> (d in heap && d != c) || d in Waiting(cs, integrated, ready, c.id)
    requires forall d :: d in ready ==>
               d.id in indegree' && indegree'[d.id] == if d in Waiting(cs, integrated, ready, c.id) then 0 else indegree[d.id]
    ensures KahnState(cs, integrated, ready, ordered + [c], heap', indegree')
  {
    hide Before;
    var next := ordered + [c];
    IdsOfSnoc(ordered, c);
    forall i | 0 <= i < |next| ensures IsNext(cs, integrated, IdsOf(next[..i]), next[i]) {
      if i < |ordered| {
        assert next[..i] == ordered[..i];
      } else {
        assert next[..i] == ordered;
      }
    }
    forall d ensures d in heap' <==> Available(cs, integrated, IdsOf(next), d) {
      WaitsOnce(cs, integrated, ready, ordered, d, c);
    }
  }

  lemma WaitsOnce(cs: seq<Candidate>, integrated: set<nat>, ready: seq<Candidate>, ordered: seq<Candidate>, d: Candidate, c: Candidate)
    requires DistinctIds(cs) && (forall d :: d in ready <==> d in cs && d.state == Ready)
    requires Available(cs, integrated, IdsOf(ordered), c)
    requires forall i :: 0 <= i < |ordered| ==> IsNext(cs, integrated, IdsOf(ordered[..i]), ordered[i])
    ensures d in Waiting(cs, integrated, ready, c.id) ==> d.id !in IdsOf(ordered) && d.id != c.id
  {
  }

  lemma HeapEntries(cs: seq<Candidate>, integrated: set<nat>, ready: seq<Candidate>, ordered: seq<Candidate>,
                    heap: seq<Candidate>, indegree: map<nat, int>)
    requires forall d :: d in ready <==> d in cs && d.state == Ready
    requires KahnState(cs, integrated, ready, ordered, heap, indegree)
    ensures DistinctIds(heap) && Counts(cs, integrated, ready, IdsOf(ordered), indegree)
    ensures forall d :: d in heap ==> d in ready && d.id in indegree && indegree[d.id] == 0 && d.id in IdsOf(ready) - IdsOf(ordered)
    ensures heap == [] ==> IsGreedy(cs, integrated, ordered)
  {
  }

  method InitialHeap(cs: seq<Candidate>, integrated: set<nat>, ready: seq<Candidate>, indegree: map<nat, int>)
    returns (heap: seq<Candidate>)
    requires DistinctIds(ready) && (forall d :: d in ready <==> d in cs && d.state == Ready)
    requires Counts(cs, integrated, ready, {}, indegree)
    ensures KahnState(cs, integrated, ready, [], heap, indegree)
  {
    heap := [];
    for i := 0 to |ready|
      invariant DistinctIds(heap) && forall c :: c in heap <==> c in ready[..i] && indegree[c.id] == 0
    {
      assert ready[..i + 1] == ready[..i] + [ready[i]];
      assert forall c | c in heap :: c in ready[..i] && c.id != ready[i].id;
      if indegree[ready[i].id] == 0 {
        heap := heap + [ready[i]];
      }
    }
    assert ready[..|ready|] == ready;
  }

  /** One round: the least entry is ordered, and its dependents are freed. */
  method Round(cs: seq<Candidate>, integrated: set<nat>, ready: seq<Candidate>, ordered: seq<Candidate>, heap: seq<Candidate>,
               dependents: map<nat, seq<Candidate>>, indegree: map<nat, int>)
    returns (ordered': seq<Candidate>, heap': seq<Candidate>, indegree': map<nat, int>)
    requires DistinctIds(cs) && DistinctIds(ready) && forall d :: d in ready <==> d in cs && d.state == Ready
    requires forall id: nat :: (if id in dependents then dependents[id] else []) == Waiting(cs, integrated, ready, id)
    requires heap != [] && KahnState(cs, integrated, ready, ordered, heap, indegree)
    ensures KahnState(cs, integrated, ready, ordered', heap', indegree')
    ensures exists c :: c in IdsOf(ready) - IdsOf(ordered) && IdsOf(ordered') == IdsOf(ordered) + {c}
  {
    hide Before, Satisfied, Available, IsNext, KahnState, DistinctIds, Waiting, Counts;
    HeapEntries(cs, integrated, ready, ordered, heap, indegree);
    var c, rest := PopLeast(heap);
    var waiting := if c.id in dependents then dependents[c.id] else [];
    heap', indegree' := Release(cs, integrated, ready, ordered, waiting, rest, indegree, c);
    ordered' := ordered + [c];
    KahnStep(cs, integrated, ready, ordered, heap, indegree, c, heap', indegree');
    IdsOfSnoc(ordered, c);
  }

  /** Kahn's algorithm with a priority heap computes the greedy reference order. */
  method KahnOrder(cs: seq<Candidate>, integrated: set<nat>, ready: seq<Candidate>) returns (ordered: seq<Candidate>)
    requires DistinctIds(cs) && DistinctIds(ready) && forall d :: d in ready <==> d in cs && d.state == Ready
    ensures IsGreedy(cs, integrated, ordered)
  {
    hide Before, Satisfied, Available, IsNext, IsGreedy, KahnState, DistinctIds, Waiting;
    var dependents: map<nat, seq<Candidate>>, indegree: map<nat, int> := BuildGraph(cs, integrated, ready);
    var heap := InitialHeap(cs, integrated, ready, indegree);
    ordered := [];
    while heap != []
      invariant KahnState(cs, integrated, ready, ordered, heap, indegree)
      decreases |IdsOf(ready) - IdsOf(ordered)|
    {
      ghost var left := IdsOf(ready) - IdsOf(ordered);
      ghost var before := IdsOf(ordered);
      ordered, heap, indegree := Round(cs, integrated, ready, ordered, heap, dependents, indegree);
      ghost var id :| id in left && IdsOf(ordered) == before + {id};
      assert IdsOf(ready) - IdsOf(ordered) == left - {id};
    }
    HeapEntries(cs, integrated, ready, ordered, heap, indegree);
  }

  // ------------------------------------------------------------------ what is left over

  predicate SortedByPosition(s: seq<Candidate>) {
    forall i, j :: 0 <= i < j < |s| ==> s[i].queuePosition <= s[j].queuePosition
  }

  /** Inserts `c` after every entry of the same or a lower position. */
  function Insert(s: seq<Candidate>, c: Candidate): (t: seq<Candidate>)
    ensures multiset(t) == multiset(s) + multiset{c}
  {
    if s == [] then [c]
    else
      var last := s[|s|-1];
      assert s == s[..|s|-1] + [last];
      if last.queuePosition <= c.queuePosition then s + [c] else Insert(s[..|s|-1], c) + [last]
  }

  /** The final sort of the leftovers: a stable sort by queue position. */
  function SortByPosition(s: seq<Candidate>): (t: seq<Candidate>)
    ensures multiset(t) == multiset(s)
  {
    if s == [] then []
    else
      assert s == s[..|s|-1] + [s[|s|-1]];
      Insert(SortByPosition(s[..|s|-1]), s[|s|-1])
  }

  function AtPosition(s: seq<Candidate>, p: int): seq<Candidate> {
    if s == [] then []
    else AtPosition(s[..|s|-1], p) + (if s[|s|-1].queuePosition == p then [s[|s|-1]] else [])
  }

  lemma {:induction false} InsertIsStable(s: seq<Candidate>, c: Candidate, p: int)
    ensures AtPosition(Insert(s, c), p) == AtPosition(s, p) + (if c.queuePosition == p then [c] else [])
  {
    if s != [] {
      var last := s[|s|-1];
      if last.queuePosition <= c.queuePosition {
        assert (s + [c])[..|s|] == s;
      } else {
        var t := Insert(s[..|s|-1], c);
        assert (t + [last])[..|t|] == t;
        InsertIsStable(s[..|s|-1], c, p);
      }
    }
  }

  lemma {:induction false} InsertSorts(s: seq<Candidate>, c: Candidate)
    requires SortedByPosition(s)
    ensures SortedByPosition(Insert(s, c))
  {
    if s != [] && s[|s|-1].queuePosition > c.queuePosition {
      var init := s[..|s|-1];
      var t := Insert(init, c);
      InsertSorts(init, c);
      forall i | 0 <= i < |t| ensures t[i].queuePosition <= s[|s|-1].queuePosition {
        assert t[i] in multiset(t);
        assert t[i] in multiset(init) || t[i] == c;
      }
    }
  }

  /** Sorted, nothing lost, and candidates at one position keep their listing order. */
  lemma {:induction false} SortIsStable(s: seq<Candidate>, p: int)
    ensures SortedByPosition(SortByPosition(s)) && AtPosition(SortByPosition(s), p) == AtPosition(s, p)
  {
    if s != [] {
      SortIsStable(s[..|s|-1], p);
      InsertSorts(SortByPosition(s[..|s|-1]), s[|s|-1]);
      InsertIsStable(SortByPosition(s[..|s|-1]), s[|s|-1], p);
    }
  }

  /** The candidates of `rs` that were not ordered, with or without a READY dependency. */
  function Leftover(cs: seq<Candidate>, rs: seq<Candidate>, ordered: seq<Candidate>, blocked: bool): (w: seq<Candidate>)
    ensures forall c :: c in w <==> c in rs && c !in ordered && HasReadyDependency(cs, c) == blocked
  {
    if rs == [] then []
    else
      var c := rs[|rs|-1];
      var w := Leftover(cs, rs[..|rs|-1], ordered, blocked);
      assert rs == rs[..|rs|-1] + [c];
      if c !in ordered && HasReadyDependency(cs, c) == blocked then w + [c] else w
  }

  lemma {:induction false} LeftoverIsDistinct(cs: seq<Candidate>, rs: seq<Candidate>, ordered: seq<Candidate>, blocked: bool)
    requires DistinctIds(rs)
    ensures DistinctIds(SortByPosition(Leftover(cs, rs, ordered, blocked)))
  {
    hide HasReadyDependency;
    LeftoverKeepsDistinct(cs, rs, ordered, blocked);
    DistinctWhateverTheOrder(Leftover(cs, rs, ordered, blocked), SortByPosition(Leftover(cs, rs, ordered, blocked)));
  }

  lemma {:induction false} LeftoverKeepsDistinct(cs: seq<Candidate>, rs: seq<Candidate>, ordered: seq<Candidate>, blocked: bool)
    requires DistinctIds(rs)
    ensures DistinctIds(Leftover(cs, rs, ordered, blocked))
  {
    hide HasReadyDependency;
    if rs != [] {
      var init, last := rs[..|rs|-1], rs[|rs|-1];
      LeftoverKeepsDistinct(cs, init, ordered, blocked);
      assert forall c | c in Leftover(cs, init, ordered, blocked) :: c in init && c.id != last.id;
    }
  }

  lemma {:induction false} CountedOnce(a: seq<Candidate>, c: Candidate)
    requires DistinctIds(a)
    ensures multiset(a)[c] <= 1
  {
    if a != [] {
      var init, last := a[..|a|-1], a[|a|-1];
      CountedOnce(init, c);
      assert a == init + [last];
      assert c == last ==> c !in init;
    }
  }

  lemma DistinctWhateverTheOrder(a: seq<Candidate>, b: seq<Candidate>)
    requires DistinctIds(a) && multiset(b) == multiset(a)
    ensures DistinctIds(b)
  {
    forall i, j | 0 <= i < j < |b| ensures b[i].id != b[j].id {
      CountedOnce(a, b[i]);
      assert b[i] in multiset(a) && b[j] in multiset(a);
      assert b == b[..j] + b[j..] && b[i] in b[..j] && b[j] in b[j..];
    }
  }

  method DependencyIsReady(ready: seq<Candidate>, c: Candidate) returns (yes: bool)
    ensures yes <==> c.dependsOn.Some? && exists d :: d in ready && d.id == c.dependsOn.value
  {
    if c.dependsOn.None? {
      return false;
    }
    for i := 0 to |ready|
      invariant forall j :: 0 <= j < i ==> ready[j].id != c.dependsOn.value
    {
      if ready[i].id == c.dependsOn.value {
        return true;
      }
    }
    yes := false;
  }

  /** `deterministic_order`: the whole outcome.  The ordered part is the greedy order and holds exactly the
      grounded candidates; of the others, those whose dependency is READY are blocked and the rest deferred. */
  method DeterministicOrder(cs: seq<Candidate>, integrated: set<nat>) returns (outcome: OrderOutcome)
    requires DistinctIds(cs)
    ensures IsGreedy(cs, integrated, outcome.ordered)
    ensures forall c :: c in outcome.ordered <==> Grounded(cs, integrated, c)
    ensures forall c :: c in outcome.blocked <==>
              c in cs && c.state == Ready && !Grounded(cs, integrated, c) && HasReadyDependency(cs, c)
    ensures forall c :: c in outcome.deferred <==>
              c in cs && c.state == Ready && !Grounded(cs, integrated, c) && !HasReadyDependency(cs, c)
    ensures SortedByPosition(outcome.blocked) && SortedByPosition(outcome.deferred)
    ensures DistinctIds(outcome.ordered) && DistinctIds(outcome.blocked) && DistinctIds(outcome.deferred)
    ensures outcome.blocked == SortByPosition(Leftover(cs, ReadyList(cs), outcome.ordered, true))
    ensures outcome.deferred == SortByPosition(Leftover(cs, ReadyList(cs), outcome.ordered, false))
  {
    hide IsGreedy, Grounded, SortedByPosition, DistinctIds, HasReadyDependency, SortByPosition, ReadyList;
    var ready := ReadyOnly(cs);
    var ordered := KahnOrder(cs, integrated, ready);
    OrderedIffGrounded(cs, integrated, ordered);
    var deferred: seq<Candidate>, blocked: seq<Candidate> := [], [];
    for i := 0 to |ready|
      invariant blocked == Leftover(cs, ready[..i], ordered, true)
      invariant deferred == Leftover(cs, ready[..i], ordered, false)
    {
      assert ready[..i + 1][..i] == ready[..i];
      if ready[i] !in ordered {
        var waits := DependencyIsReady(ready, ready[i]);
        ReadyDependency(cs, ready, ready[i]);
        if waits {
          blocked := blocked + [ready[i]];
        } else {
          deferred := deferred + [ready[i]];
        }
      }
    }
    assert ready[..|ready|] == ready;
    outcome := OrderOutcome(ordered, SortByPosition(deferred), SortByPosition(blocked));
    SameMembers(deferred);
    SameMembers(blocked);
    LeftoverIsDistinct(cs, ready, ordered, true);
    LeftoverIsDistinct(cs, ready, ordered, false);
  }

  lemma ReadyDependency(cs: seq<Candidate>, ready: seq<Candidate>, c: Candidate)
    requires forall d :: d in ready <==> d in cs && d.state == Ready
    ensures HasReadyDependency(cs, c) <==> c.dependsOn.Some? && exists d :: d in ready && d.id == c.dependsOn.value
  {
  }

  lemma SameMembers(s: seq<Candidate>)
    ensures forall c :: c in SortByPosition(s) <==> c in s
    ensures SortedByPosition(SortByPosition(s))
  {
    SortIsStable(s, 0);
    forall c ensures c in SortByPosition(s) <==> c in s {
      assert c in SortByPosition(s) <==> c in multiset(SortByPosition(s));
    }
  }

  /** The order in plain terms, where no dependency interferes: by queue position, then higher priority, then id. */
  lemma IndependentInKeyOrder(cs: seq<Candidate>, integrated: set<nat>, order: seq<Candidate>, i: nat, j: nat)
    requires DistinctIds(cs) && IsGreedy(cs, integrated, order) && i < j < |order| && Satisfied(cs, integrated, order[j])
    ensures order[i].queuePosition <= order[j].queuePosition
    ensures order[i].queuePosition == order[j].queuePosition ==> order[i].priority >= order[j].priority
    ensures order[i].queuePosition == order[j].queuePosition && order[i].priority == order[j].priority ==> order[i].id < order[j].id
  {
    hide Satisfied;
    OrderedIffGrounded(cs, integrated, order);
    assert IsNext(cs, integrated, IdsOf(order[..i]), order[i]);
    assert IsNext(cs, integrated, IdsOf(order[..j]), order[j]);
    assert order[j].id !in IdsOf(order[..i]);
    assert Available(cs, integrated, IdsOf(order[..i]), order[j]);
  }

  // ------------------------------------------------------------------ cycles

  /** `n` unsatisfied dependency edges lead from `c` to `d`, all through READY candidates. */
  predicate Leads(cs: seq<Candidate>, integrated: set<nat>, c: Candidate, d: Candidate, n: nat)
    decreases n
  {
    && c in cs && c.state == Ready
    && if n == 0 then c == d
       else !Satisfied(cs, integrated, c)
            && exists e :: e in cs && e.id == c.dependsOn.value && Leads(cs, integrated, e, d, n - 1)
  }

  lemma {:induction false} LeadsDown(cs: seq<Candidate>, integrated: set<nat>, c: Candidate, d: Candidate, n: nat, depth: nat)
    requires DistinctIds(cs) && Leads(cs, integrated, c, d, n) && GroundedIn(cs, integrated, c, depth)
    ensures n <= depth && GroundedIn(cs, integrated, d, depth - n)
    decreases n
  {
    if n > 0 {
      var e :| e in cs && e.id == c.dependsOn.value && Leads(cs, integrated, e, d, n - 1);
      LeadsDown(cs, integrated, e, d, n - 1, depth - 1);
    }
  }

  lemma {:induction false} CycleIsUngrounded(cs: seq<Candidate>, integrated: set<nat>, c: Candidate, n: nat, depth: nat)
    requires DistinctIds(cs) && n > 0 && Leads(cs, integrated, c, c, n)
    ensures !GroundedIn(cs, integrated, c, depth)
    decreases depth
  {
    if GroundedIn(cs, integrated, c, depth) {
      LeadsDown(cs, integrated, c, c, n, depth);
      CycleIsUngrounded(cs, integrated, c, n, depth - n);
    }
  }

  /** Every member of a dependency cycle, a self-dependency included, ends up blocked. */
  lemma CyclesAreBlocked(cs: seq<Candidate>, integrated: set<nat>, c: Candidate, n: nat)
    requires DistinctIds(cs) && n > 0 && Leads(cs, integrated, c, c, n)
    ensures c in cs && c.state == Ready && !Grounded(cs, integrated, c) && HasReadyDependency(cs, c)
  {
    forall depth: nat ensures !GroundedIn(cs, integrated, c, depth) {
      CycleIsUngrounded(cs, integrated, c, n, depth);
    }
    var e :| e in cs && e.id == c.dependsOn.value && Leads(cs, integrated, e, c, n - 1);
    assert e.state == Ready;
  }

  /** Being blocked is wider than being on a cycle: whatever waits for a deferred candidate is blocked too,
      although no chain of dependencies leads from it back to itself. */
  lemma BlockedBehindDeferred(cs: seq<Candidate>, integrated: set<nat>, c: Candidate, d: Candidate)
    requires DistinctIds(cs) && c in cs && d in cs && c.state == d.state == Ready
    requires c.dependsOn == Some(d.id) && d.id !in integrated
    requires !Grounded(cs, integrated, d) && !HasReadyDependency(cs, d)
    ensures !Grounded(cs, integrated, c) && HasReadyDependency(cs, c)
    ensures forall n: nat :: n > 0 ==> !Leads(cs, integrated, c, c, n)
  {
    forall n: nat ensures !GroundedIn(cs, integrated, c, n) {
      if GroundedIn(cs, integrated, c, n) {
        GroundedThrough(cs, integrated, c, d, n);
      }
    }
    forall n: nat | n > 0 ensures !Leads(cs, integrated, c, c, n) {
      if Leads(cs, integrated, c, c, n) {
        var e :| e in cs && e.id == d.id && Leads(cs, integrated, e, c, n - 1);
        LeadsNeedsReady(cs, integrated, e, c, n - 1);
      }
    }
  }

  lemma {:induction false} LeadsTrans(cs: seq<Candidate>, integrated: set<nat>, a: Candidate, b: Candidate, c: Candidate, n: nat, m: nat)
    requires Leads(cs, integrated, a, b, n) && Leads(cs, integrated, b, c, m)
    ensures Leads(cs, integrated, a, c, n + m)
    decreases n
  {
    if n > 0 {
      var e :| e in cs && e.id == a.dependsOn.value && Leads(cs, integrated, e, b, n - 1);
      LeadsTrans(cs, integrated, e, b, c, n - 1, m);
    }
  }

  ghost predicate LeadsOn(cs: seq<Candidate>, integrated: set<nat>, c: Candidate, d: Candidate) {
    exists m: nat :: m > 0 && Leads(cs, integrated, c, d, m)
  }

  /** Where an ungrounded chain ends: on a cycle, or, after at least one edge, at a deferred candidate. */
  ghost predicate EndsBadly(cs: seq<Candidate>, integrated: set<nat>, c: Candidate, d: Candidate, n: nat) {
    && Leads(cs, integrated, c, d, n)
    && (LeadsOn(cs, integrated, d, d)
        || (n > 0 && !Grounded(cs, integrated, d) && !HasReadyDependency(cs, d)))
  }

  lemma NextUngrounded(cs: seq<Candidate>, integrated: set<nat>, c: Candidate) returns (e: Candidate)
    requires DistinctIds(cs) && c in cs && c.state == Ready && !Grounded(cs, integrated, c) && HasReadyDependency(cs, c)
    ensures e in cs && e.state == Ready && !Grounded(cs, integrated, e) && Leads(cs, integrated, c, e, 1)
  {
    e :| e in cs && e.id == c.dependsOn.value && e.state == Ready;
    assert !GroundedIn(cs, integrated, c, 0);
    assert Leads(cs, integrated, e, e, 0);
    forall n: nat ensures !GroundedIn(cs, integrated, e, n) {
      assert !GroundedIn(cs, integrated, c, n + 1);
    }
  }

  /** Follows the chain from `c`, which `seen` leads to. */
  lemma {:induction false} FollowChain(cs: seq<Candidate>, integrated: set<nat>, c: Candidate, seen: set<Candidate>) returns (d: Candidate, n: nat)
    requires DistinctIds(cs) && c in cs && c.state == Ready && !Grounded(cs, integrated, c) && HasReadyDependency(cs, c) && c !in seen
    requires forall s :: s in seen ==> s in cs && LeadsOn(cs, integrated, s, c)
    ensures EndsBadly(cs, integrated, c, d, n)
    decreases (set x | x in cs) - seen
  {
    hide Leads, Grounded, HasReadyDependency, DistinctIds;
    var e := NextUngrounded(cs, integrated, c);
    assert Leads(cs, integrated, c, c, 0) by { LeadsZero(cs, integrated, c); }
    if e == c {
      return c, 0;
    }
    if e in seen {
      var m: nat :| m > 0 && Leads(cs, integrated, e, c, m);
      LeadsTrans(cs, integrated, e, c, e, m, 1);
      return e, 1;
    }
    if !HasReadyDependency(cs, e) {
      return e, 1;
    }
    forall s | s in seen + {c} ensures s in cs && LeadsOn(cs, integrated, s, e) {
      if s != c {
        var m: nat :| m > 0 && Leads(cs, integrated, s, c, m);
        LeadsTrans(cs, integrated, s, c, e, m, 1);
      }
    }
    d, n := FollowChain(cs, integrated, e, seen + {c});
    LeadsTrans(cs, integrated, c, e, d, 1, n);
    n := n + 1;
  }

  lemma LeadsZero(cs: seq<Candidate>, integrated: set<nat>, c: Candidate)
    requires c in cs && c.state == Ready
    ensures Leads(cs, integrated, c, c, 0)
  {
  }

  /** Exactly what `blocked` holds: the candidates whose chain of unsatisfied dependencies reaches a cycle, or reaches
      a deferred candidate over at least one edge. */
  lemma BlockedIff(cs: seq<Candidate>, integrated: set<nat>, c: Candidate)
    requires DistinctIds(cs)
    ensures c in cs && c.state == Ready && !Grounded(cs, integrated, c) && HasReadyDependency(cs, c)
            <==> exists d, n: nat :: EndsBadly(cs, integrated, c, d, n)
  {
    if c in cs && c.state == Ready && !Grounded(cs, integrated, c) && HasReadyDependency(cs, c) {
      var d, n := FollowChain(cs, integrated, c, {});
    }
    if d, n: nat :| EndsBadly(cs, integrated, c, d, n) {
      if LeadsOn(cs, integrated, d, d) {
        var m: nat :| m > 0 && Leads(cs, integrated, d, d, m);
        CyclesAreBlocked(cs, integrated, d, m);
      }
      forall depth: nat ensures !GroundedIn(cs, integrated, c, depth) {
        if GroundedIn(cs, integrated, c, depth) {
          LeadsDown(cs, integrated, c, d, n, depth);
        }
      }
      LeadsNeedsReady(cs, integrated, c, d, n);
    }
  }

  lemma GroundedThrough(cs: seq<Candidate>, integrated: set<nat>, c: Candidate, d: Candidate, n: nat)
    requires DistinctIds(cs) && GroundedIn(cs, integrated, c, n) && !Satisfied(cs, integrated, c)
    requires d in cs && c.dependsOn == Some(d.id)
    ensures n > 0 && GroundedIn(cs, integrated, d, n - 1)
  {
    var e :| e in cs && e.id == d.id && GroundedIn(cs, integrated, e, n - 1);
    assert e == d;
  }

  lemma LeadsNeedsReady(cs: seq<Candidate>, integrated: set<nat>, c: Candidate, d: Candidate, n: nat)
    requires Leads(cs, integrated, c, d, n)
    ensures if n == 0 then c == d else HasReadyDependency(cs, c)
  {
    if n > 0 {
      var e :| e in cs && e.id == c.dependsOn.value && Leads(cs, integrated, e, d, n - 1);
      assert e.state == Ready;
    }
  }
}
