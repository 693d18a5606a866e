/**
 The merge queue's own procedures (argent_core/merge_queue.py): evaluating one candidate, finding the base,
 driving one candidate through integration, processing a queue and recovering it.  Other runs may act
 between any two of their steps; every execution is a run of the state machine of module MergeQueue.
 */
module MergeQueueDriver {
  import opened Wrappers
  import opened CommitGraph
  import opened IntegrationOrder
  import opened MergeQueue
  import opened IntegratedHistory

  /** `git merge-base`: climb from any common ancestor to a best one. */
  method GitMergeBase(g: Graph, a: Sha, b: Sha) returns (mb: Option<Sha>)
    requires ValidGraph(g) && a in g && b in g
    ensures IsMergeBase(g, mb, a, b)
  {
    var common := g[a] * g[b];
    if common == {} {
      assert forall m :: Common(g, m, a, b) ==> m in common;
      return None;
    }
    var m :| m in common;
    while exists n :: n in common && n in g && m in g[n] && n != m
      invariant m in common
      decreases |g.Keys| - |g[m]|
    {
      var n :| n in common && n in g && m in g[n] && n != m;
      assert g[m] <= g[n] && n in g[n] && n !in g[m];
      SmallerSet(g[m], g[n]);
      SmallerSet(g[n], g.Keys);
      m := n;
    }
    assert Common(g, m, a, b);
    forall n | Common(g, n, a, b) && IsAncestor(g, m, n) ensures n == m {
      assert n in common;
    }
    mb := Some(m);
  }

  lemma {:induction false} SmallerSet<T>(x: set<T>, y: set<T>)
    requires x <= y
    ensures |x| <= |y| && (x != y ==> |x| < |y|)
  {
    assert y == x + (y - x);
    assert |y| == |x| + |y - x|;
    if x != y {
      var e :| e in y - x;
    }
  }

  /** The steps of one run in a history. */
  function StepsOf(acts: seq<Action>, rid: nat): seq<Action> {
    if acts == [] then []
    else
      var last := acts[|acts|-1];
      StepsOf(acts[..|acts|-1], rid) + (if RunOf(last) == Some(rid) then [last] else [])
  }

  /** The world the procedures act in: the store, with the run that led to it. */
  class Environment {
    var store: Store
    ghost var origin: Store
    ghost var trace: seq<Action>

    ghost predicate Valid()
      reads this
    {
      Inv(origin) && History(origin) && Runs(origin, trace) && store == After(origin, trace) && Inv(store) && History(store)
    }

    constructor (s: Store)
      requires Init(s)
      ensures Valid() && store == origin == s && trace == []
    {
      store, origin, trace := s, s, [];
      new;
      InitHistory(s);
    }

    /** Anything others do that leaves run `rid` alone. */
    method Interfere(rid: nat)
      requires Valid()
      modifies this
      ensures Valid() && origin == old(origin) && Grows(old(store), store)
      ensures StepsOf(trace, rid) == StepsOf(old(trace), rid)
      ensures rid in store.runs <==> rid in old(store).runs
      ensures rid in store.runs ==> store.runs[rid] == old(store).runs[rid]
    {
      GrowsSelf(store);
    }

    method Perform(a: Action)
      requires Valid() && Enabled(store, a)
      modifies this
      ensures Valid() && origin == old(origin) && trace == old(trace) + [a] && store == Apply(old(store), a)
      ensures Grows(old(store), store)
      ensures forall rid: nat :: StepsOf(trace, rid) == StepsOf(old(trace), rid) + (if RunOf(a) == Some(rid) then [a] else [])
    {
      hide Inv, History, Runs, After, Apply, Enabled, Grows;
      RunsSnoc(origin, trace, a);
      StepKeepsInv(store, a);
      StepKeepsHistory(store, a);
      store := Apply(store, a);
      trace := trace + [a];
    }
  }

  predicate SortedListing(s: Store, keys: seq<Key>) {
    && (forall k :: k in keys ==> k in s.rows)
    && forall i, j :: 0 <= i < j < |keys| ==> ListedBefore(s, keys[i], keys[j])
  }

  ghost predicate ListsQueue(s: Store, queue: nat, keys: seq<Key>) {
    && (forall k :: k in keys <==> k in s.rows && k.queue == queue) && SortedListing(s, keys)
  }

  lemma Inserted(s: Store, keys: seq<Key>, i: nat, k: Key)
    requires SortedListing(s, keys) && k in s.rows && i <= |keys|
    requires i > 0 ==> ListedBefore(s, keys[i - 1], k)
    requires i < |keys| ==> ListedBefore(s, k, keys[i])
    ensures SortedListing(s, keys[..i] + [k] + keys[i..])
  {
    forall j | 0 <= j < i ensures ListedBefore(s, keys[j], k) {
      if j < i - 1 { assert ListedBefore(s, keys[j], keys[i - 1]); }
    }
    forall j | i <= j < |keys| ensures ListedBefore(s, k, keys[j]) {
      if i < j { assert ListedBefore(s, keys[i], keys[j]); }
    }
  }

  /** One row joins the listing at its place. */
  method InsertKey(s: Store, keys: seq<Key>, k: Key) returns (r: seq<Key>)
    requires SortedListing(s, keys) && k in s.rows && forall l :: l in keys ==> l in s.rows && l.queue == k.queue && l != k
    ensures SortedListing(s, r) && forall l :: l in r <==> l in keys || l == k
  {
    hide SortedListing;
    var i := |keys|;
    while i > 0 && ListedBefore(s, k, keys[i - 1])
      invariant 0 <= i <= |keys|
      invariant i < |keys| ==> ListedBefore(s, k, keys[i])
    {
      i := i - 1;
    }
    if i > 0 {
      assert keys[i - 1] in keys;
    }
    Inserted(s, keys, i, k);
    assert keys == keys[..i] + keys[i..];
    r := keys[..i] + [k] + keys[i..];
  }

  /** `list_integration_candidates`: the rows of a queue in listing order. */
  method ListCandidates(s: Store, queue: nat) returns (keys: seq<Key>)
    ensures ListsQueue(s, queue, keys)
  {
    keys := [];
    var rest := s.rows.Keys;
    while rest != {}
      invariant rest <= s.rows.Keys
      invariant SortedListing(s, keys) && forall k :: k in keys <==> k in s.rows && k !in rest && k.queue == queue
      decreases |rest|
    {
      var k :| k in rest;
      rest := rest - {k};
      if k.queue == queue {
        keys := InsertKey(s, keys, k);
      }
    }
  }

  /** `_current_integration_base`: the last integrated head in the listing, else the branch tip. */
  method CurrentIntegrationBase(s: Store, queue: nat) returns (base: Option<Sha>)
    requires Inv(s) && History(s)
    ensures base.Some? ==> IsBase(s, queue, base.value) && base.value in s.commits
    ensures base.None? ==> queue !in s.tips && forall k: Key :: IsIntegrated(s, k) ==> k.queue != queue
  {
    hide Inv, History;
    var keys := ListCandidates(s, queue);
    base := None;
    ghost var last := 0;
    for i := 0 to |keys|
      invariant base.None? ==> forall j :: 0 <= j < i ==> !IsIntegrated(s, keys[j])
      invariant base.Some? ==> last < i && IsIntegrated(s, keys[last]) && s.rows[keys[last]].head == base
      invariant base.Some? ==> forall j :: last < j < i ==> !IsIntegrated(s, keys[j])
    {
      if s.rows[keys[i]].state == Integrated && s.rows[keys[i]].head.Some? {
        base := s.rows[keys[i]].head;
        last := i;
      } else {
        HeadOf(s, keys[i]);
      }
    }
    if base.Some? {
      HeadOf(s, keys[last]);
      forall k | IsIntegrated(s, k) && k.queue == queue && k != keys[last] ensures ListedBefore(s, k, keys[last]) {
        var j :| 0 <= j < |keys| && keys[j] == k;
      }
      assert IsLastListed(s, queue, keys[last]);
    } else {
      TipsOf(s);
      forall k: Key | IsIntegrated(s, k) ensures k.queue != queue {
        assert k in keys <==> k.queue == queue;
      }
      if queue in s.tips {
        base := Some(s.tips[queue]);
      }
    }
  }

  lemma HeadOf(s: Store, key: Key)
    requires History(s) && key in s.rows
    ensures s.rows[key].head.Some? ==> s.rows[key].head.value in s.commits
    ensures s.rows[key].state == Integrated ==> s.rows[key].head.Some?
  {
    assert RowCommits(s, key);
  }

  /** A commit id not used yet. */
  method FreshSha(g: Graph) returns (sha: Sha)
    ensures sha !in g
  {
    sha := 0;
    var rest := g.Keys;
    while rest != {}
      invariant forall c :: c in g && c !in rest ==> c < sha
      decreases |rest|
    {
      var c :| c in rest;
      rest := rest - {c};
      sha := if c >= sha then c + 1 else sha;
    }
  }

  /** What git, the worktree and the test runner answer on the way of one candidate; `authentic` says that the tests
      ran and their evidence carries the keyed digest. */
  datatype Answers = Answers(resolvable: bool, sourceKept: bool, conflicts: Option<bool>, worktreeReady: bool, clean: bool,
                             headReadable: bool, runTests: bool, authentic: bool, passed: bool)

  /** What the caller is told: a state, or a raised error. */
  datatype Outcome = Reported(state: CandidateState, locked: bool) | Raised

  datatype Fence = Committed | RowMoved | HolderLost

  // ------------------------------------------------------------------ the steps one integration may take

  function MarkFor(verdict: Option<MergeClassification>): CandidateState {
    match verdict
    case Some(DependencyNotIntegrated) => Pending
    case Some(StaleBase) => Stale
    case Some(Conflict) => Conflicted
    case _ => Failed
  }

  /** Steps 3 and 4; `go` says that the integration goes on.  A missing prerequisite sends the candidate back to PENDING, a
      stale base and a conflict have states of their own, and what cannot be decided is a failure. */
  predicate BaseLeg(rid: nat, verdict: Option<MergeClassification>, steps: seq<Action>, go: bool) {
    && (go <==> verdict == Some(CleanApply) || verdict == Some(DivergedClean))
    && (go ==> |steps| == 1 && steps[0].ReadBase? && steps[0].rid == rid)
    && (verdict == Some(DependencyNotIntegrated) ==> steps == [Mark(rid, Pending)])
    && (verdict == Some(StaleBase) ==> steps == [Mark(rid, Stale)])
    && (verdict == Some(Conflict) ==> steps == [Mark(rid, Conflicted)])
    && (verdict == Some(Unknown) || verdict == None ==> steps == [Mark(rid, Failed)])
  }

  lemma GoesOn(rid: nat, v: MergeClassification, a: Action)
    requires v in {CleanApply, DivergedClean} && a.ReadBase? && a.rid == rid
    ensures BaseLeg(rid, Some(v), [a], true)
  {
  }

  lemma EndsHere(rid: nat, verdict: Option<MergeClassification>)
    requires verdict !in {Some(CleanApply), Some(DivergedClean)}
    ensures BaseLeg(rid, verdict, [Mark(rid, MarkFor(verdict))], false)
    ensures MarkFor(verdict) in {Failed, Stale, Conflicted, Pending}
  {
  }

  /** Steps 5 and 5b; a step that did not commit is the last one. */
  predicate MergeLeg(rid: nat, w: Answers, steps: seq<Action>, go: bool) {
    if !w.worktreeReady then !go && steps == [Mark(rid, Failed)]
    else
      || (!go && steps == [Prepare(rid)])
      || (!go && !w.clean && steps == [Prepare(rid), Mark(rid, Conflicted)])
      || (!go && w.clean && !w.headReadable && steps == [Prepare(rid), Mark(rid, Failed)])
      || (w.clean && w.headReadable && |steps| == 2 && steps[0] == Prepare(rid) && steps[1].Merge? && steps[1].rid == rid)
  }

  /** Step 6: a candidate is closed only after tests whose evidence is authentic. */
  predicate CloseLeg(rid: nat, w: Answers, steps: seq<Action>) {
    if !w.runTests || !w.authentic then steps == [Mark(rid, Failed)]
    else steps == [Test(rid, w.passed)] || steps == [Test(rid, w.passed), Finish(rid)]
  }

  ghost predicate LegsAfterClaim(rid: nat, w: Answers, verdict: Option<MergeClassification>, steps: seq<Action>) {
    if !w.resolvable then steps == [Mark(rid, Failed)]
    else if !w.sourceKept then steps == [Mark(rid, Stale)]
    else exists a, b, c, go, on :: LegsAre(rid, w, verdict, steps, a, b, c, go, on)
  }

  predicate LegsAre(rid: nat, w: Answers, verdict: Option<MergeClassification>, steps: seq<Action>,
                    a: seq<Action>, b: seq<Action>, c: seq<Action>, go: bool, on: bool) {
    && steps == a + b + c && BaseLeg(rid, verdict, a, go)
    && (if go then MergeLeg(rid, w, b, on) else !on && b == [])
    && (if on then CloseLeg(rid, w, c) else c == [])
  }

  /** `verdict` is git's classification of the candidate in store `s`; `None` says that there is no base. */
  ghost predicate ClassifiedIn(s: Store, key: Key, conflicts: Option<bool>, verdict: Option<MergeClassification>) {
    key in s.rows &&
    if verdict.None? then key.queue !in s.tips && forall k: Key :: IsIntegrated(s, k) ==> k.queue != key.queue
    else
      exists base, mergeBase ::
        && IsBase(s, key.queue, base) && base in s.commits && IsMergeBase(s.commits, mergeBase, base, s.rows[key].sourceHead)
        && verdict.value == ClassifyMerge(s.commits, Some(base), Some(s.rows[key].sourceHead), Some(s.rows[key].claimedBase),
                                        DependencySatisfied(s, key), mergeBase, conflicts)
  }

  /** The claim commits exactly here: the holder has lease and lock, the row is as it was read, and no other candidate
      of the queue is in flight. */
  predicate Claimable(s: Store, key: Key, revision: nat, holder: Holder) {
    && key in s.rows && HoldsLease(s, holder) && HoldsLock(s, key.queue, holder)
    && s.rows[key].state == Ready && s.rows[key].revision == revision && !InFlight(s, key.queue)
  }

  predicate InFlight(s: Store, queue: nat) {
    exists k :: k in s.rows && k.queue == queue && s.rows[k].state == Integrating
  }

  // ------------------------------------------------------------------ what a pass over the queue reports

  datatype Processed = Processed(integrated: seq<Key>, conflicted: seq<Key>, stale: seq<Key>, failed: seq<Key>, raised: bool)

  const NOTHING := Processed([], [], [], [], false)

  function Counted(p: Processed, key: Key, out: Outcome): Processed {
    match out
    case Raised => p.(raised := true)
    case Reported(Integrated, _) => p.(integrated := p.integrated + [key])
    case Reported(Conflicted, _) => p.(conflicted := p.conflicted + [key])
    case Reported(Stale, _) => p.(stale := p.stale + [key])
    case Reported(Failed, _) => p.(failed := p.failed + [key])
    case _ => p
  }

  function Tally(keys: seq<Key>, outs: seq<Outcome>): Processed
    requires |keys| == |outs|
  {
    if keys == [] then NOTHING
    else Counted(Tally(keys[..|keys|-1], outs[..|outs|-1]), keys[|keys|-1], outs[|outs|-1])
  }

  predicate Stops(out: Outcome) {
    out == Raised || out.state in {Conflicted, Failed} || (out.locked && out.state !in {Integrated, Stale})
  }

  class MergeQueueRunner {
    /** Promotes a PENDING or STALE candidate to READY when it is admissible, else to PENDING; a row that moved in
        between raises.  Whatever happens meanwhile, a candidate that is READY afterwards has its prerequisite INTEGRATED. */
    method EvaluateCandidate(env: Environment, rid: nat, key: Key, reviewOk: bool) returns (raised: bool)
      requires env.Valid() && rid !in env.store.runs
      modifies env
      ensures env.Valid() && env.origin == old(env.origin) && Grows(old(env.store), env.store) && rid !in env.store.runs
      ensures key !in old(env.store).rows ==> raised && env.store == old(env.store)
      ensures key in old(env.store).rows ==>
                && key in env.store.rows && (env.store.rows[key].state == Ready ==> DependencySatisfied(env.store, key))
                && (if Evaluable(old(env.store), key) then
                      && env.store.rows[key].revision > old(env.store).rows[key].revision
                      && (!raised ==> env.store.rows[key].state == if DependencySatisfied(old(env.store), key) && reviewOk then Ready else Pending)
                    else !raised && env.store == old(env.store))
      ensures StepsOf(env.trace, rid) == StepsOf(old(env.trace), rid)
                                         + (if Evaluable(old(env.store), key) then [Decide(rid, key, reviewOk), Promote(rid)] else [])
    {
      hide Inv, History, Runs, After, Grows, StepsOf, DependencySatisfied, Apply, Enabled;
      GrowsSelf(env.store);
      if key !in env.store.rows { return true; }
      StillReady(env.store, env.store, key);
      if !Evaluable(env.store, key) { return false; }
      DecideEffect(env.store, rid, key, reviewOk);
      env.Perform(Decide(rid, key, reviewOk));
      label L:
      env.Interfere(rid);
      label M:
      GrowsTrans(old(env.store), old@L(env.store), env.store);
      SameRevisionSameRow(old(env.store), env.store, key);
      RevisionsGrow(old(env.store), env.store);
      var run := env.store.runs[rid];
      raised := env.store.rows[key].state != run.from || env.store.rows[key].revision != run.revision;
      PromoteEffect(env.store, rid);
      env.Perform(Promote(rid));
      RevisionsGrow(old@M(env.store), env.store);
      GrowsTrans(old(env.store), old@M(env.store), env.store);
      StillReady(old(env.store), env.store, key);
    }

    /** One fenced transition: others may act first, then it commits or the run is over. */
    method Fenced(env: Environment, rid: nat, a: Action) returns (fence: Fence, ghost at: Store)
      requires env.Valid() && rid in env.store.runs && Suits(env.store.runs[rid], a, rid)
      modifies env
      ensures env.Valid() && env.origin == old(env.origin) && Grows(old(env.store), env.store)
      ensures StepsOf(env.trace, rid) == StepsOf(old(env.trace), rid) + [a]
      ensures Inv(at) && rid in at.runs && at.runs[rid] == old(env.store).runs[rid] && Enabled(at, a)
      ensures env.store == Apply(at, a) && (fence == Committed <==> CanMove(at, rid))
      ensures var run := at.runs[rid];
              fence == HolderLost <==> !HoldsLease(at, run.holder) || !HoldsLock(at, run.key.queue, run.holder)
    {
      hide Inv, History, Runs, After, Grows, Apply, StepsOf, HoldsLease, HoldsLock;
      env.Interfere(rid);
      at := env.store;
      var run := env.store.runs[rid];
      fence := if !HoldsLease(env.store, run.holder) || !HoldsLock(env.store, run.key.queue, run.holder) then HolderLost
               else if CanMove(env.store, rid) then Committed else RowMoved;
      env.Perform(a);
      GrowsTrans(old(env.store), at, env.store);
    }

    /** The row is read again for the report. */
    method ReadAgain(env: Environment, rid: nat, key: Key) returns (state: CandidateState)
      requires env.Valid() && key in env.store.rows && rid !in env.store.runs
      modifies env
      ensures env.Valid() && env.origin == old(env.origin) && Grows(old(env.store), env.store) && rid !in env.store.runs
      ensures StepsOf(env.trace, rid) == StepsOf(old(env.trace), rid)
      ensures key in env.store.rows && state == env.store.rows[key].state
    {
      hide Inv, History, Runs, After, Grows, StepsOf;
      env.Interfere(rid);
      KeyStays(old(env.store), env.store, key);
      state := env.store.rows[key].state;
    }

    /** A bounded ending: the candidate is marked, unless the row or the holder has moved on; the row's state is
        reported either way. */
    method MarkAs(env: Environment, rid: nat, to: CandidateState) returns (state: CandidateState)
      requires env.Valid() && rid in env.store.runs && env.store.runs[rid].Driving? && to in {Failed, Stale, Conflicted, Pending}
      modifies env
      ensures env.Valid() && env.origin == old(env.origin) && Grows(old(env.store), env.store) && rid !in env.store.runs
      ensures StepsOf(env.trace, rid) == StepsOf(old(env.trace), rid) + [Mark(rid, to)]
      ensures var key := old(env.store).runs[rid].key; key in env.store.rows && state == env.store.rows[key].state
    {
      hide Inv, History, Runs, After, Grows, StepsOf, Apply, Enabled, CanMove;
      KeyOfRun(env.store, rid);
      var key := env.store.runs[rid].key;
      var fence, at := Fenced(env, rid, Mark(rid, to));
      MarkEffect(at, rid, to);
      KeyStays(old(env.store), env.store, key);
      if fence == Committed {
        state := to;
      } else {
        label L:
        state := ReadAgain(env, rid, key);
        GrowsTrans(old(env.store), old@L(env.store), env.store);
      }
    }

    /** Steps 3 and 4: the base, and git's classification of the merge onto it. */
    method ChooseBase(env: Environment, rid: nat, conflicts: Option<bool>)
      returns (go: bool, state: CandidateState, ghost verdict: Option<MergeClassification>, ghost steps: seq<Action>, ghost at: Store)
      requires env.Valid() && rid in env.store.runs && env.store.runs[rid].Driving? && env.store.runs[rid].stage == Claimed
      modifies env
      ensures env.Valid() && env.origin == old(env.origin) && Grows(old(env.store), env.store)
      ensures StepsOf(env.trace, rid) == StepsOf(old(env.trace), rid) + steps && BaseLeg(rid, verdict, steps, go)
      ensures ClassifiedIn(at, old(env.store).runs[rid].key, conflicts, verdict) && Grows(old(env.store), at)
      ensures go ==> rid in env.store.runs && env.store.runs[rid].Driving? && env.store.runs[rid].stage.Based?
                     && env.store.runs[rid] == old(env.store).runs[rid].(stage := env.store.runs[rid].stage)
      ensures !go ==> rid !in env.store.runs
                      && var key := old(env.store).runs[rid].key; key in env.store.rows && state == env.store.rows[key].state
    {
      hide Inv, History, Runs, After, Grows, IsBase, IsMergeBase, ClassifyMerge, StepsOf, DependencySatisfied, BaseLeg, MarkFor;
      env.Interfere(rid);
      label L:
      at := env.store;
      KeyOfRun(env.store, rid);
      var key := env.store.runs[rid].key;
      var base := CurrentIntegrationBase(env.store, key.queue);
      verdict, state := None, Integrating;
      var to := MarkFor(None);
      if base.Some? {
        var r := env.store.rows[key];
        TipsOf(env.store);
        var mergeBase := GitMergeBase(env.store.commits, base.value, r.sourceHead);
        var v := ClassifyMerge(env.store.commits, base, Some(r.sourceHead), Some(r.claimedBase),
                               DependencySatisfied(env.store, key), mergeBase, conflicts);
        verdict := Some(v);
        assert ClassifiedIn(at, key, conflicts, verdict);
        if v in {CleanApply, DivergedClean} {
          env.Perform(ReadBase(rid, base.value, mergeBase, conflicts));
          GrowsTrans(old(env.store), old@L(env.store), env.store);
          go, steps := true, [ReadBase(rid, base.value, mergeBase, conflicts)];
          assert BaseLeg(rid, verdict, steps, go) by { GoesOn(rid, v, ReadBase(rid, base.value, mergeBase, conflicts)); }
          return;
        }
        to := MarkFor(Some(v));
      }
      EndsHere(rid, verdict);
      state := MarkAs(env, rid, to);
      GrowsTrans(old(env.store), old@L(env.store), env.store);
      go, steps := false, [Mark(rid, to)];
    }

    /** Step 5b, when the merge is clean: the integrated head is recorded. */
    method MergeInWorktree(env: Environment, rid: nat) returns (fence: Fence, ghost sha: Sha)
      requires env.Valid() && rid in env.store.runs && env.store.runs[rid].Driving? && env.store.runs[rid].stage.Prepared?
      modifies env
      ensures env.Valid() && env.origin == old(env.origin) && Grows(old(env.store), env.store)
      ensures StepsOf(env.trace, rid) == StepsOf(old(env.trace), rid) + [Merge(rid, sha)]
      ensures fence == Committed ==> rid in env.store.runs && env.store.runs[rid].Driving? && env.store.runs[rid].stage.Merged?
                                     && env.store.runs[rid].key == old(env.store).runs[rid].key
                                     && env.store.runs[rid].holder == old(env.store).runs[rid].holder
      ensures fence != Committed ==> rid !in env.store.runs
    {
      hide Inv, History, Runs, After, Grows, StepsOf;
      env.Interfere(rid);
      label M:
      var run := env.store.runs[rid];
      var lost := !HoldsLease(env.store, run.holder) || !HoldsLock(env.store, run.key.queue, run.holder);
      var merged := FreshSha(env.store.commits);
      sha := merged;
      env.Perform(Merge(rid, merged));
      GrowsTrans(old(env.store), old@M(env.store), env.store);
      fence := if rid in env.store.runs then Committed else if lost then HolderLost else RowMoved;
    }

    /** Steps 5 and 5b: the worktree, and the merge in it. */
    method PrepareAndMerge(env: Environment, rid: nat, w: Answers) returns (go: bool, state: CandidateState, ghost steps: seq<Action>)
      requires env.Valid() && rid in env.store.runs && env.store.runs[rid].Driving? && env.store.runs[rid].stage.Based?
      modifies env
      ensures env.Valid() && env.origin == old(env.origin) && Grows(old(env.store), env.store)
      ensures StepsOf(env.trace, rid) == StepsOf(old(env.trace), rid) + steps && MergeLeg(rid, w, steps, go)
      ensures go ==> rid in env.store.runs && env.store.runs[rid].Driving? && env.store.runs[rid].stage.Merged?
                     && env.store.runs[rid].key == old(env.store).runs[rid].key
                     && env.store.runs[rid].holder == old(env.store).runs[rid].holder
      ensures !go ==> rid !in env.store.runs
                      && var key := old(env.store).runs[rid].key; key in env.store.rows && state in {env.store.rows[key].state, Integrating}
    {
      hide Inv, History, Runs, After, Grows, StepsOf, Apply, Enabled, CanMove;
      KeyOfRun(env.store, rid);
      var key := env.store.runs[rid].key;
      go, state := false, Integrating;
      if !w.worktreeReady {
        state := MarkAs(env, rid, Failed);
        steps := [Mark(rid, Failed)];
        return;
      }
      var fence, at := Fenced(env, rid, Prepare(rid));
      PrepareEffectOnRun(at, rid);
      KeyStays(old(env.store), env.store, key);
      steps := [Prepare(rid)];
      label L:
      if fence != Committed {
        state := Report(env, rid, key, fence);
      } else if !w.clean || !w.headReadable {
        var to := if !w.clean then Conflicted else Failed;
        state := MarkAs(env, rid, to);
        steps := steps + [Mark(rid, to)];
      } else {
        ghost var sha;
        fence, sha := MergeInWorktree(env, rid);
        steps := steps + [Merge(rid, sha)];
        label M:
        KeyStays(old@L(env.store), env.store, key);
        go := fence == Committed;
        if !go {
          state := Report(env, rid, key, fence);
          GrowsTrans(old@L(env.store), old@M(env.store), env.store);
        }
      }
      GrowsTrans(old(env.store), old@L(env.store), env.store);
    }

    /** What is reported when a step in the middle did not commit. */
    method Report(env: Environment, rid: nat, key: Key, fence: Fence) returns (state: CandidateState)
      requires env.Valid() && key in env.store.rows && rid !in env.store.runs
      modifies env
      ensures env.Valid() && env.origin == old(env.origin) && Grows(old(env.store), env.store) && rid !in env.store.runs
      ensures StepsOf(env.trace, rid) == StepsOf(old(env.trace), rid)
      ensures key in env.store.rows && state == if fence == HolderLost then env.store.rows[key].state else Integrating
    {
      hide Inv, History, Runs, After, Grows, StepsOf;
      GrowsSelf(env.store);
      state := Integrating;
      if fence == HolderLost {
        state := ReadAgain(env, rid, key);
      }
    }

    /** Step 6: the tests on the integrated snapshot, and the closing transition. */
    method TestAndClose(env: Environment, rid: nat, w: Answers) returns (state: CandidateState, closed: bool, ghost steps: seq<Action>)
      requires env.Valid() && rid in env.store.runs && env.store.runs[rid].Driving? && env.store.runs[rid].stage.Merged?
      modifies env
      ensures env.Valid() && env.origin == old(env.origin) && Grows(old(env.store), env.store) && rid !in env.store.runs
      ensures StepsOf(env.trace, rid) == StepsOf(old(env.trace), rid) + steps && CloseLeg(rid, w, steps)
      ensures var run := old(env.store).runs[rid];
              && run.key in env.store.rows && state in {env.store.rows[run.key].state, Integrating}
              && (closed ==> w.runTests && w.authentic && w.passed && state == Integrated && ClosedBy(env.store, run.key, run.holder))
    {
      hide Inv, History, Runs, After, Grows, StepsOf, Apply, Enabled, CanMove, ClosedBy;
      KeyOfRun(env.store, rid);
      var key := env.store.runs[rid].key;
      closed := false;
      if !w.runTests || !w.authentic {
        state := MarkAs(env, rid, Failed);
        steps := [Mark(rid, Failed)];
        return;
      }
      var fence, at := Fenced(env, rid, Test(rid, w.passed));
      TestEffect(at, rid, w.passed);
      KeyStays(old(env.store), env.store, key);
      steps := [Test(rid, w.passed)];
      label L:
      if fence != Committed {
        state := Report(env, rid, key, fence);
      } else {
        state, closed := Close(env, rid, w.passed);
        steps := steps + [Finish(rid)];
      }
      GrowsTrans(old(env.store), old@L(env.store), env.store);
    }

    /** The closing transition; `closed` says that it committed and made the candidate INTEGRATED. */
    method Close(env: Environment, rid: nat, passed: bool) returns (state: CandidateState, closed: bool)
      requires env.Valid() && rid in env.store.runs && env.store.runs[rid].Driving? && env.store.runs[rid].stage.Tested?
      requires env.store.runs[rid].stage.done == passed
      modifies env
      ensures env.Valid() && env.origin == old(env.origin) && Grows(old(env.store), env.store) && rid !in env.store.runs
      ensures StepsOf(env.trace, rid) == StepsOf(old(env.trace), rid) + [Finish(rid)]
      ensures var run := old(env.store).runs[rid];
              && run.key in env.store.rows && state == env.store.rows[run.key].state
              && (closed ==> passed && state == Integrated && ClosedBy(env.store, run.key, run.holder))
    {
      hide Inv, History, Runs, After, Grows, StepsOf, Apply, Enabled, CanMove, ClosedBy;
      KeyOfRun(env.store, rid);
      var key := env.store.runs[rid].key;
      var fence, at := Fenced(env, rid, Finish(rid));
      FinishEffect(at, rid);
      KeyStays(old(env.store), env.store, key);
      closed := fence == Committed && passed;
      if fence == Committed {
        state := if passed then Integrated else Failed;
      } else {
        label L:
        state := ReadAgain(env, rid, key);
        GrowsTrans(old(env.store), old@L(env.store), env.store);
      }
    }

    /** `_integrate_locked`: one candidate, as it was read in `c`, through its fenced transitions.  It says it closed the
        candidate only when it did so itself, by five transitions at consecutive revisions under its own lease and lock. */
    method IntegrateLocked(env: Environment, rid: nat, key: Key, c: Row, holder: Holder, w: Answers)
      returns (out: Outcome, closed: bool, ghost steps: seq<Action>, ghost at: Store, ghost seen: Store, ghost verdict: Option<MergeClassification>)
      requires env.Valid() && key in env.store.rows && rid !in env.store.runs
      modifies env
      ensures env.Valid() && env.origin == old(env.origin) && Grows(old(env.store), env.store) && rid !in env.store.runs
      ensures StepsOf(env.trace, rid) == StepsOf(old(env.trace), rid) + steps && Grows(old(env.store), at)
      ensures if Claimable(at, key, c.revision, holder) then
                && steps != [] && steps[0] == Claim(rid, key, holder) && LegsAfterClaim(rid, w, verdict, steps[1..])
                && (w.resolvable && w.sourceKept ==> Grows(at, seen) && ClassifiedIn(seen, key, w.conflicts, verdict))
              else steps == []
      ensures key in at.rows && key in env.store.rows
      ensures out == Raised <==> HoldsLease(at, holder) && HoldsLock(at, key.queue, holder)
                                 && at.rows[key].state == Ready && at.rows[key].revision == c.revision && InFlight(at, key.queue)
      ensures out.Reported? ==> !out.locked && out.state in {env.store.rows[key].state, c.state, Integrating}
      ensures closed ==> w.runTests && w.authentic && w.passed && out == Reported(Integrated, false) && ClosedBy(env.store, key, holder)
    {
      hide Inv, History, Runs, After, Grows, ClosedBy, ClassifyMerge, StepsOf, LegsAfterClaim, ClassifiedIn, HoldsLease, HoldsLock, InFlight;
      env.Interfere(rid);
      at, seen, verdict, steps, closed := env.store, env.store, None, [], false;
      GrowsSelf(at);
      KeyStays(old(env.store), env.store, key);
      if !HoldsLease(env.store, holder) || !HoldsLock(env.store, key.queue, holder) {
        var state := ReadAgain(env, rid, key);
        GrowsTrans(old(env.store), at, env.store);
        out := Reported(state, false);
        return;
      }
      if env.store.rows[key].state != Ready || env.store.rows[key].revision != c.revision {
        out := Reported(c.state, false);
        return;
      }
      if InFlight(env.store, key.queue) {
        out := Raised;
        return;
      }
      assert Claimable(at, key, c.revision, holder);
      ClaimEffectOnRun(env.store, rid, key, holder);
      env.Perform(Claim(rid, key, holder));
      label L:
      KeyStays(at, env.store, key);
      var state;
      ghost var legs;
      state, closed, legs, verdict, seen := AfterClaim(env, rid, w);
      KeyStays(old@L(env.store), env.store, key);
      GrowsTrans(at, old@L(env.store), env.store);
      GrowsTrans(old(env.store), at, env.store);
      if w.resolvable && w.sourceKept {
        GrowsTrans(at, old@L(env.store), seen);
      }
      steps := [Claim(rid, key, holder)] + legs;
      assert steps[1..] == legs;
      out := Reported(state, false);
    }

    method AfterClaim(env: Environment, rid: nat, w: Answers)
      returns (state: CandidateState, closed: bool, ghost steps: seq<Action>, ghost verdict: Option<MergeClassification>, ghost seen: Store)
      requires env.Valid() && rid in env.store.runs && env.store.runs[rid].Driving? && env.store.runs[rid].stage == Claimed
      modifies env
      ensures env.Valid() && env.origin == old(env.origin) && Grows(old(env.store), env.store) && rid !in env.store.runs
      ensures StepsOf(env.trace, rid) == StepsOf(old(env.trace), rid) + steps && LegsAfterClaim(rid, w, verdict, steps)
      ensures var run := old(env.store).runs[rid];
              && (w.resolvable && w.sourceKept ==> Grows(old(env.store), seen) && ClassifiedIn(seen, run.key, w.conflicts, verdict))
              && run.key in env.store.rows && state in {env.store.rows[run.key].state, Integrating}
              && (closed ==> w.runTests && w.authentic && w.passed && state == Integrated && ClosedBy(env.store, run.key, run.holder))
    {
      hide Inv, History, Runs, After, Grows, ClosedBy, ClassifyMerge, StepsOf, BaseLeg, MergeLeg, CloseLeg, ClassifiedIn;
      closed, seen, verdict := false, env.store, None;
      if !w.resolvable || !w.sourceKept {
        var to := if !w.resolvable then Failed else Stale;
        state := MarkAs(env, rid, to);
        steps := [Mark(rid, to)];
        return;
      }
      var go: bool;
      ghost var a: seq<Action>;
      ghost var b: seq<Action>;
      ghost var c: seq<Action>;
      go, state, verdict, a, seen := ChooseBase(env, rid, w.conflicts);
      b, c := [], [];
      label L:
      var on := false;
      if go {
        on, state, b := PrepareAndMerge(env, rid, w);
        GrowsTrans(old(env.store), old@L(env.store), env.store);
        label M:
        if on {
          state, closed, c := TestAndClose(env, rid, w);
          GrowsTrans(old(env.store), old@M(env.store), env.store);
        }
      }
      steps := a + b + c;
      assert LegsAre(rid, w, verdict, steps, a, b, c, go, on);
    }

    /** `integrate_candidate`: the row is read, then the lock is taken for one integration and given back afterwards,
        even by a caller that held it before.  A candidate reported INTEGRATED is INTEGRATED, though not always by this
        call: the report may be what another holder made of it. */
    method IntegrateCandidate(env: Environment, rid: nat, key: Key, holder: Holder, w: Answers)
      returns (out: Outcome, closed: bool, ghost steps: seq<Action>)
      requires env.Valid() && rid !in env.store.runs
      modifies env
      ensures env.Valid() && env.origin == old(env.origin) && Grows(old(env.store), env.store) && rid !in env.store.runs
      ensures StepsOf(env.trace, rid) == StepsOf(old(env.trace), rid) + steps
      ensures steps == [] || (steps[0] == Claim(rid, key, holder) && exists verdict :: LegsAfterClaim(rid, w, verdict, steps[1..]))
      ensures key !in old(env.store).rows ==> out == Raised && env.store == old(env.store)
      ensures out.Reported? && out.locked ==> steps == [] && out.state == old(env.store).rows[key].state
      ensures out.Reported? ==> key in env.store.rows && out.state in {env.store.rows[key].state, old(env.store).rows[key].state, Integrating}
      ensures out.Reported? && out.state == Integrated ==> IsIntegrated(env.store, key)
      ensures closed ==> w.runTests && w.authentic && w.passed && out == Reported(Integrated, false) && ClosedBy(env.store, key, holder)
    {
      hide Inv, History, Runs, After, Grows, ClosedBy, StepsOf, LegsAfterClaim, Apply, HoldsLease, HoldsLock, ClassifiedIn, Enabled,
           Claimable, InFlight;
      GrowsSelf(env.store);
      closed, steps, out := false, [], Raised;
      if key !in env.store.rows { return; }
      var c := env.store.rows[key];
      env.Interfere(rid);
      label K:
      KeyStays(old(env.store), env.store, key);
      if !HoldsLease(env.store, holder) { return; }
      var queue := key.queue;
      if queue in env.store.locks && env.store.locks[queue] != holder && HoldsLease(env.store, env.store.locks[queue]) {
        out := Reported(c.state, true);
        StaysIntegrated(old(env.store), env.store, key);
        return;
      }
      out, closed, steps := UnderLock(env, rid, key, c, holder, w);
      GrowsTrans(old(env.store), old@K(env.store), env.store);
      StaysIntegrated(old(env.store), env.store, key);
    }

    /** The lock around one integration. */
    method UnderLock(env: Environment, rid: nat, key: Key, c: Row, holder: Holder, w: Answers)
      returns (out: Outcome, closed: bool, ghost steps: seq<Action>)
      requires env.Valid() && rid !in env.store.runs && key in env.store.rows && HoldsLease(env.store, holder)
      modifies env
      ensures env.Valid() && env.origin == old(env.origin) && Grows(old(env.store), env.store) && rid !in env.store.runs
      ensures StepsOf(env.trace, rid) == StepsOf(old(env.trace), rid) + steps
      ensures steps == [] || (steps[0] == Claim(rid, key, holder) && exists verdict :: LegsAfterClaim(rid, w, verdict, steps[1..]))
      ensures out.Reported? ==> !out.locked && key in env.store.rows && out.state in {env.store.rows[key].state, c.state, Integrating}
      ensures closed ==> w.runTests && w.authentic && w.passed && out == Reported(Integrated, false) && ClosedBy(env.store, key, holder)
      ensures !(key.queue in env.store.locks && env.store.locks[key.queue] == holder)
    {
      hide Inv, History, Runs, After, Grows, ClosedBy, StepsOf, LegsAfterClaim, Apply, HoldsLease, ClassifiedIn, Enabled, Claimable, InFlight;
      LockEffect(env.store, key.queue, holder);
      env.Perform(AcquireLock(key.queue, holder));
      label M:
      ghost var at, seen, verdict;
      out, closed, steps, at, seen, verdict := IntegrateLocked(env, rid, key, c, holder, w);
      label N:
      GrowsTrans(old(env.store), old@M(env.store), env.store);
      LockEffect(env.store, key.queue, holder);
      env.Perform(ReleaseLock(key.queue, holder));
      GrowsTrans(old(env.store), old@N(env.store), env.store);
      if closed {
        ClosedStays(old@N(env.store), env.store, key, holder);
      }
      assert steps != [] ==> LegsAfterClaim(rid, w, verdict, steps[1..]);
    }

    /** The evaluation pass: every PENDING or STALE candidate of the queue, unless one of them raises. */
    method EvaluateAll(env: Environment, rid: nat, queue: nat, reviewOk: Key -> bool) returns (raised: bool)
      requires env.Valid() && rid !in env.store.runs
      modifies env
      ensures env.Valid() && env.origin == old(env.origin) && Grows(old(env.store), env.store) && rid !in env.store.runs
      ensures !raised ==> forall k :: Evaluable(old(env.store), k) && k.queue == queue ==>
                                        k in env.store.rows && env.store.rows[k].revision > old(env.store).rows[k].revision
    {
      hide Inv, History, Runs, After, Grows, StepsOf;
      var listed := env.store;
      var keys := ListCandidates(listed, queue);
      GrowsSelf(env.store);
      for i := 0 to |keys|
        invariant env.Valid() && env.origin == old(env.origin) && Grows(old(env.store), env.store) && rid !in env.store.runs
        invariant forall j :: 0 <= j < i && Evaluable(old(env.store), keys[j]) ==>
                                keys[j] in env.store.rows && env.store.rows[keys[j]].revision > old(env.store).rows[keys[j]].revision
      {
        label L:
        KeyStays(old(env.store), env.store, keys[i]);
        SameRevisionSameRow(old(env.store), env.store, keys[i]);
        RevisionsGrow(old(env.store), env.store);
        if Evaluable(listed, keys[i]) {
          raised := EvaluateCandidate(env, rid, keys[i], reviewOk(keys[i]));
          RevisionsGrow(old@L(env.store), env.store);
          GrowsTrans(old(env.store), old@L(env.store), env.store);
          if raised { return; }
        }
      }
      raised := false;
    }

    /** Integrates the ordered candidates one at a time, stopping at a conflict, a failure, a lock it cannot get or a
        raised error; `outs` are the outcomes one by one. */
    method IntegrateInOrder(env: Environment, rid: nat, keys: seq<Key>, holder: Holder, answers: Key -> Answers)
      returns (p: Processed, ghost outs: seq<Outcome>)
      requires env.Valid() && rid !in env.store.runs && forall k :: k in keys ==> k in env.store.rows
      modifies env
      ensures env.Valid() && env.origin == old(env.origin) && Grows(old(env.store), env.store) && rid !in env.store.runs
      ensures |outs| <= |keys| && p == Tally(keys[..|outs|], outs)
      ensures forall i :: 0 <= i < |outs| && Stops(outs[i]) ==> i == |outs| - 1
      ensures |outs| < |keys| ==> outs != [] && Stops(outs[|outs|-1])
      ensures forall k :: k in p.integrated ==> k in keys && IsIntegrated(env.store, k)
    {
      hide Inv, History, Runs, After, Grows, StepsOf;
      p, outs := NOTHING, [];
      GrowsSelf(env.store);
      var i := 0;
      while i < |keys|
        invariant 0 <= i <= |keys| && env.Valid() && env.origin == old(env.origin) && rid !in env.store.runs
        invariant Grows(old(env.store), env.store)
        invariant |outs| == i && p == Tally(keys[..i], outs) && forall j :: 0 <= j < i ==> !Stops(outs[j])
        invariant forall k :: k in p.integrated ==> k in keys && IsIntegrated(env.store, k)
      {
        ghost var before := outs;
        label L:
        env.Interfere(rid);
        label M:
        GrowsTrans(old(env.store), old@L(env.store), env.store);
        var out, _, _ := IntegrateCandidate(env, rid, keys[i], holder, answers(keys[i]));
        GrowsTrans(old(env.store), old@M(env.store), env.store);
        GrowsTrans(old@L(env.store), old@M(env.store), env.store);
        forall k | k in p.integrated ensures IsIntegrated(env.store, k) {
          StaysIntegrated(old@L(env.store), env.store, k);
        }
        p := Counted(p, keys[i], out);
        outs := outs + [out];
        assert keys[..i + 1][..i] == keys[..i] && outs[..i] == before;
        i := i + 1;
        if Stops(out) { return; }
      }
      assert keys[..|keys|] == keys;
    }

    /** One candidate as it was listed in `c`: reset if it is in flight, its recorded holder lacks lease or lock, and
        its row has not moved. */
    method RecoverOne(env: Environment, rid: nat, k: Key, c: Row) returns (done: bool)
      requires env.Valid() && rid !in env.store.runs && k in env.store.rows
      requires env.store.rows[k].revision == c.revision ==> env.store.rows[k] == c
      modifies env
      ensures env.Valid() && env.origin == old(env.origin) && Grows(old(env.store), env.store) && rid !in env.store.runs
      ensures k in env.store.rows
      ensures var due := Orphaned(old(env.store), k) && old(env.store).rows[k].revision == c.revision;
              && (if due then env.store.rows[k].revision > c.revision else !done && env.store == old(env.store))
              && (done ==> PutBack(old(env.store), env.store, k))
              && StepsOf(env.trace, rid) == StepsOf(old(env.trace), rid) + (if due then [Check(rid, k), Reset(rid)] else [])
    {
      hide Inv, History, Runs, After, Grows, Apply, Enabled, HoldsLease, HoldsLock, StepsOf, Orphaned;
      GrowsSelf(env.store);
      if !Orphaned(env.store, k) || env.store.rows[k].revision != c.revision {
        return false;
      }
      CheckEffect(env.store, rid, k);
      env.Perform(Check(rid, k));
      label N:
      env.Interfere(rid);
      label O:
      GrowsTrans(old(env.store), old@N(env.store), env.store);
      RevisionsGrow(old(env.store), env.store);
      done := env.store.rows[k].state == Integrating && env.store.rows[k].revision == c.revision;
      ResetEffect(env.store, rid, k);
      SameRevisionSameRow(old(env.store), env.store, k);
      env.Perform(Reset(rid));
      GrowsTrans(old(env.store), old@O(env.store), env.store);
      RevisionsGrow(old@O(env.store), env.store);
    }

    /** `reconcile_target`: every INTEGRATING candidate whose recorded holder no longer holds both lease and lock
        is put back to PENDING; one that is left in flight had a live holder when it was looked at; nothing
        INTEGRATED is touched, and a stale lock is reclaimed. */
    method ReconcileTarget(env: Environment, rid: nat, queue: nat) returns (reset: seq<Key>, reclaimed: bool)
      requires env.Valid() && rid !in env.store.runs
      modifies env
      ensures env.Valid() && env.origin == old(env.origin) && Grows(old(env.store), env.store) && rid !in env.store.runs
      ensures forall k :: k in reset ==> WasPutBack(old(env.store), env.store, k)
      ensures forall k :: k in old(env.store).rows && k.queue == queue ==> LookedAfter(old(env.store), env.store, k)
      ensures queue in env.store.locks ==> HoldsLease(env.store, env.store.locks[queue])
    {
      hide Inv, History, Runs, After, Grows, StepsOf, LookedAfter, Orphaned, PutBack, WasPutBack;
      var listed := env.store;
      var keys := ListCandidates(listed, queue);
      reset := [];
      GrowsSelf(env.store);
      for i := 0 to |keys|
        invariant env.Valid() && env.origin == old(env.origin) && Grows(old(env.store), env.store) && rid !in env.store.runs
        invariant forall k :: k in reset ==> WasPutBack(old(env.store), env.store, k)
        invariant forall j :: 0 <= j < i ==> LookedAfter(old(env.store), env.store, keys[j])
      {
        label L:
        RevisionsGrow(old(env.store), env.store);
        SameRevisionSameRow(old(env.store), env.store, keys[i]);
        var done := RecoverOne(env, rid, keys[i], listed.rows[keys[i]]);
        GrowsTrans(old(env.store), old@L(env.store), env.store);
        RevisionsGrow(old@L(env.store), env.store);
        LookedAt(old(env.store), old@L(env.store), env.store, keys[i]);
        forall j | 0 <= j < i ensures LookedAfter(old(env.store), env.store, keys[j]) {
          StillLookedAfter(old(env.store), old@L(env.store), env.store, keys[j]);
        }
        forall k | k in reset ensures WasPutBack(old(env.store), env.store, k) {
          StaysPutBack(old(env.store), old@L(env.store), env.store, k);
        }
        if done {
          PutBackNow(old(env.store), old@L(env.store), env.store, keys[i]);
          reset := reset + [keys[i]];
        }
      }
      label P:
      reclaimed := queue in env.store.locks && !HoldsLease(env.store, env.store.locks[queue]);
      env.Perform(ReclaimLock(queue));
      GrowsTrans(old(env.store), old@P(env.store), env.store);
      RevisionsGrow(old@P(env.store), env.store);
      forall k | k in reset ensures WasPutBack(old(env.store), env.store, k) {
        StaysPutBack(old(env.store), old@P(env.store), env.store, k);
      }
      forall k | k in old(env.store).rows && k.queue == queue ensures LookedAfter(old(env.store), env.store, k) {
        assert k in keys;
        StillLookedAfter(old(env.store), old@P(env.store), env.store, k);
      }
    }
  }

  /** In flight, and the recorded holder lacks the lease or the lock. */
  predicate Orphaned(s: Store, k: Key) {
    k in s.rows && s.rows[k].state == Integrating
    && !(s.rows[k].holder.Some? && HoldsLease(s, s.rows[k].holder.value) && HoldsLock(s, k.queue, s.rows[k].holder.value))
  }

  /** A candidate that is still in flight as before was not orphaned at some moment in between. */
  ghost predicate LookedAfter(s: Store, t: Store, k: Key) {
    k in s.rows && k in t.rows && s.rows[k].state == Integrating && t.rows[k].revision == s.rows[k].revision ==>
      exists v :: Grows(s, v) && Grows(v, t) && !Orphaned(v, k)
  }

  /** The row as recovery leaves it: PENDING, without a holder, and otherwise as it was. */
  predicate PutBack(s: Store, t: Store, k: Key) {
    && k in s.rows && k in t.rows && s.rows[k].state == Integrating
    && var r, u := s.rows[k], t.rows[k];
       && u.state == Pending && u.holder == None && u.revision == r.revision + 1
       && u.(state := r.state, holder := r.holder, revision := r.revision, log := r.log) == r
  }

  /** At some moment between the two stores the row was put back; others may have moved it on since. */
  ghost predicate WasPutBack(s: Store, t: Store, k: Key) {
    && k in s.rows && k in t.rows && s.rows[k].revision < t.rows[k].revision
    && exists u, v :: Grows(s, u) && PutBack(u, v, k) && Grows(v, t)
  }

  lemma PutBackNow(s: Store, u: Store, v: Store, k: Key)
    requires k in s.rows && Grows(s, u) && PutBack(u, v, k)
    ensures WasPutBack(s, v, k)
  {
    hide Grows;
    RevisionsGrow(s, u);
    GrowsSelf(v);
  }

  lemma StaysPutBack(s: Store, t: Store, w: Store, k: Key)
    requires WasPutBack(s, t, k) && Grows(t, w)
    ensures WasPutBack(s, w, k)
  {
    hide Grows, PutBack;
    var u, v :| Grows(s, u) && PutBack(u, v, k) && Grows(v, t);
    GrowsTrans(v, t, w);
    RevisionsGrow(t, w);
  }

  lemma LookedAt(s: Store, v: Store, t: Store, k: Key)
    requires k in s.rows && Grows(s, v) && Grows(v, t)
    requires k in v.rows && k in t.rows && (Orphaned(v, k) && v.rows[k].revision == s.rows[k].revision ==> t.rows[k].revision > s.rows[k].revision)
    ensures LookedAfter(s, t, k)
  {
    hide Orphaned;
    RevisionsGrow(s, v);
    RevisionsGrow(v, t);
  }

  lemma StillLookedAfter(s: Store, t: Store, u: Store, k: Key)
    requires Grows(s, t) && Grows(t, u) && LookedAfter(s, t, k)
    ensures LookedAfter(s, u, k)
  {
    hide Grows, Orphaned;
    RevisionsGrow(s, t);
    RevisionsGrow(t, u);
    if k in s.rows && s.rows[k].state == Integrating && u.rows[k].revision == s.rows[k].revision {
      var v :| Grows(s, v) && Grows(v, t) && !Orphaned(v, k);
      GrowsTrans(v, t, u);
    }
  }

  lemma SameRevisionSameRow(s: Store, t: Store, k: Key)
    requires Grows(s, t) && k in s.rows
    ensures k in t.rows && (t.rows[k].revision == s.rows[k].revision ==> t.rows[k] == s.rows[k])
  {
  }

  lemma CheckEffect(s: Store, rid: nat, k: Key)
    requires rid !in s.runs && Orphaned(s, k)
    ensures k in s.rows && s.rows[k].state == Integrating && Enabled(s, Check(rid, k)) && Apply(s, Check(rid, k)) == s.(runs := s.runs[rid := Resetting(k, s.rows[k].revision)])
  {
  }

  lemma ResetEffect(s: Store, rid: nat, k: Key)
    requires rid in s.runs && s.runs[rid].Resetting? && s.runs[rid].key == k && k in s.rows
    ensures Enabled(s, Reset(rid))
    ensures var t := Apply(s, Reset(rid));
            && rid !in t.runs && k in t.rows
            && (s.rows[k].state == Integrating && s.rows[k].revision == s.runs[rid].revision ==> PutBack(s, t, k))
  {
  }

  predicate Evaluable(s: Store, k: Key) {
    k in s.rows && s.rows[k].state in {Pending, Stale}
  }

  lemma DecideEffect(s: Store, rid: nat, key: Key, reviewOk: bool)
    requires rid !in s.runs && Evaluable(s, key)
    ensures Enabled(s, Decide(rid, key, reviewOk))
    ensures var t := Apply(s, Decide(rid, key, reviewOk));
            && t.rows == s.rows && rid in t.runs
            && t.runs[rid] == Promoting(key, s.rows[key].state, if DependencySatisfied(s, key) && reviewOk then Ready else Pending, s.rows[key].revision)
  {
  }

  lemma PromoteEffect(s: Store, rid: nat)
    requires rid in s.runs && s.runs[rid].Promoting? && s.runs[rid].key in s.rows
    ensures Enabled(s, Promote(rid))
    ensures var run := s.runs[rid];
            var r := s.rows[run.key];
            var t := Apply(s, Promote(rid));
            && rid !in t.runs && run.key in t.rows
            && if r.state == run.from && r.revision == run.revision
               then t.rows[run.key].state == run.to && t.rows[run.key].revision == r.revision + 1 else t.rows == s.rows
  {
  }

  lemma MarkEffect(s: Store, rid: nat, to: CandidateState)
    requires Enabled(s, Mark(rid, to))
    ensures var t := Apply(s, Mark(rid, to));
            rid !in t.runs && (CanMove(s, rid) ==> s.runs[rid].key in t.rows && t.rows[s.runs[rid].key].state == to)
  {
  }

  lemma PrepareEffectOnRun(s: Store, rid: nat)
    requires Enabled(s, Prepare(rid))
    ensures var t := Apply(s, Prepare(rid));
            if CanMove(s, rid) then rid in t.runs && t.runs[rid].Driving? && t.runs[rid].stage.Prepared?
                                    && t.runs[rid].key == s.runs[rid].key && t.runs[rid].holder == s.runs[rid].holder
            else rid !in t.runs
  {
  }

  lemma TestEffect(s: Store, rid: nat, done: bool)
    requires Enabled(s, Test(rid, done))
    ensures var t := Apply(s, Test(rid, done));
            if CanMove(s, rid) then rid in t.runs && t.runs[rid].Driving? && t.runs[rid].stage.Tested? && t.runs[rid].stage.done == done
                                    && t.runs[rid].key == s.runs[rid].key && t.runs[rid].holder == s.runs[rid].holder
            else rid !in t.runs
  {
  }

  lemma FinishEffect(s: Store, rid: nat)
    requires Inv(s) && Enabled(s, Finish(rid))
    ensures var t := Apply(s, Finish(rid));
            var run := s.runs[rid];
            && rid !in t.runs
            && (CanMove(s, rid) ==> run.key in t.rows && t.rows[run.key].state == (if run.stage.done then Integrated else Failed))
            && (CanMove(s, rid) && run.stage.done ==> ClosedBy(t, run.key, run.holder))
  {
    hide Inv, Uninterrupted;
    StepKeepsInv(s, Finish(rid));
    if CanMove(s, rid) && s.runs[rid].stage.done {
      IntegratedLog(Apply(s, Finish(rid)), s.runs[rid].key);
    }
  }

  lemma ClaimEffectOnRun(s: Store, rid: nat, key: Key, holder: Holder)
    requires key in s.rows && Claimable(s, key, s.rows[key].revision, holder) && rid !in s.runs
    ensures Enabled(s, Claim(rid, key, holder))
    ensures var t := Apply(s, Claim(rid, key, holder));
            rid in t.runs && t.runs[rid] == Driving(key, holder, s.rows[key].revision + 1, Claimed) && key in t.rows
  {
  }

  lemma LockEffect(s: Store, queue: nat, holder: Holder)
    ensures HoldsLease(s, holder) ==>
              && Enabled(s, AcquireLock(queue, holder))
              && Apply(s, AcquireLock(queue, holder)).runs == s.runs && Apply(s, AcquireLock(queue, holder)).rows == s.rows
    ensures !HoldsLock(Apply(s, ReleaseLock(queue, holder)), queue, holder)
    ensures && Enabled(s, ReleaseLock(queue, holder))
            && Apply(s, ReleaseLock(queue, holder)).runs == s.runs && Apply(s, ReleaseLock(queue, holder)).rows == s.rows
  {
  }

  lemma StaysIntegrated(s: Store, t: Store, key: Key)
    requires Grows(s, t) && key in s.rows
    ensures key in t.rows && (s.rows[key].state == Integrated ==> IsIntegrated(t, key))
  {
  }

  lemma KeyStays(s: Store, t: Store, key: Key)
    requires Grows(s, t)
    ensures key in s.rows ==> key in t.rows
  {
  }

  lemma RevisionsGrow(s: Store, t: Store)
    requires Grows(s, t)
    ensures forall k :: k in s.rows ==> k in t.rows && s.rows[k].revision <= t.rows[k].revision
  {
  }

  lemma ClosedStays(s: Store, t: Store, key: Key, holder: Holder)
    requires Grows(s, t) && ClosedBy(s, key, holder)
    ensures ClosedBy(t, key, holder)
  {
  }

  predicate Suits(run: Run, a: Action, rid: nat) {
    run.Driving? && match a
    case Prepare(r) => r == rid && run.stage.Based?
    case Test(r, _) => r == rid && run.stage.Merged?
    case Finish(r) => r == rid && run.stage.Tested?
    case Mark(r, to) => r == rid && to in {Failed, Stale, Conflicted, Pending}
    case _ => false
  }

  /** The candidate is INTEGRATED, and its last five transitions are one unbroken run of `holder`. */
  predicate ClosedBy(s: Store, key: Key, holder: Holder) {
    IsIntegrated(s, key) && var r := s.rows[key];
    r.revision >= 1 && Uninterrupted(r.log, r.revision - 1, r.head) && r.log[r.revision - 1].who == Some(holder)
  }

  lemma KeyOfRun(s: Store, rid: nat)
    requires Inv(s) && History(s) && rid in s.runs
    ensures s.runs[rid].key in s.rows && s.rows[s.runs[rid].key].sourceHead in s.commits
  {
    assert RunOk(s, rid) && RowCommits(s, s.runs[rid].key);
  }

  lemma StillReady(s: Store, t: Store, key: Key)
    requires Inv(t) && Grows(s, t) && key in s.rows
    ensures key in t.rows && (t.rows[key].state == Ready ==> DependencySatisfied(t, key))
  {
    assert RowOk(t, key);
  }
}
