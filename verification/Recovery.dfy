/**
 Recovery against a holder that comes back (argent_core/merge_queue.py): the recorded holder is looked at before the
 reset, not with it, so a reset can hit a holder that has lease and lock again.  When that happens, and why the run it
 interrupts stays harmless.
 */
module Recovery {
  import opened Wrappers
  import opened CommitGraph
  import opened IntegrationOrder
  import opened MergeQueue
  import opened IntegratedHistory
  import opened OutOfOrder

  predicate HolderLive(s: Store, key: Key, h: Holder) {
    HoldsLease(s, h) && HoldsLock(s, key.queue, h)
  }

  /** The two ways to get back what was lost. */
  predicate Regains(a: Action, key: Key, h: Holder) {
    a == SetLease(h.job, Some(h.epoch)) || a == AcquireLock(key.queue, h)
  }

  ghost predicate LiveThroughout(s: Store, acts: seq<Action>, key: Key, h: Holder)
    requires Runs(s, acts)
    decreases |acts|
  {
    HolderLive(s, key, h) && (acts != [] ==> LiveThroughout(Apply(s, acts[0]), acts[1..], key, h))
  }

  /** At some step the holder regains lease or lock, and it keeps both from then on. */
  ghost predicate RegainsAndKeeps(s: Store, acts: seq<Action>, key: Key, h: Holder)
    requires Runs(s, acts)
    decreases |acts|
  {
    acts != [] &&
    ((!HolderLive(s, key, h) && Regains(acts[0], key, h) && LiveThroughout(Apply(s, acts[0]), acts[1..], key, h))
     || RegainsAndKeeps(Apply(s, acts[0]), acts[1..], key, h))
  }

  lemma OnlyTheseRegain(s: Store, a: Action, key: Key, h: Holder)
    requires Enabled(s, a) && !HolderLive(s, key, h) && HolderLive(Apply(s, a), key, h)
    ensures Regains(a, key, h)
  {
    hide IsBase, IsNextPosition, AddCommit, IsMergeBase, ClassifyMerge, Moved, MergeStep, DependencySatisfied;
    if a.Prepare? || a.Test? || a.Finish? || a.Mark? || a.Merge? {
      RunsLeaveLocks(s, a);
    }
  }

  lemma MovedSideEffects(s: Store, r: nat, to: CandidateState, note: Note, head: Option<Sha>, next: Option<Stage>)
    requires r in s.runs && s.runs[r].Driving?
    ensures var t := Moved(s, r, to, note, head, next); t.leases == s.leases && t.locks == s.locks && t.runs.Keys <= s.runs.Keys
  {
    hide CanMove, Advanced;
  }

  lemma RunsLeaveLocks(s: Store, a: Action)
    requires Enabled(s, a) && (a.Prepare? || a.Test? || a.Finish? || a.Mark? || a.Merge?)
    ensures var t := Apply(s, a); t.leases == s.leases && t.locks == s.locks && t.runs.Keys <= s.runs.Keys
  {
    hide Moved, AddCommit, MergedHead;
    var st := s.runs[a.rid].stage;
    match a
    case Prepare(r) => MovedSideEffects(s, r, Integrating, PrepareNote, None, Some(Prepared(st.base)));
    case Test(r, done) => MovedSideEffects(s, r, Integrating, EvidenceNote(done), None, Some(Tested(st.base, st.head, done)));
    case Finish(r) =>
      MovedSideEffects(s, r, Integrated, CloseNote, if st.done then Some(st.head) else None, None);
      MovedSideEffects(s, r, Failed, CloseNote, None, None);
    case Mark(r, to) => MovedSideEffects(s, r, to, OtherNote, None, None);
    case Merge(r, sha) =>
      var run := s.runs[r];
      if run.key in s.rows && st.base in s.commits && s.rows[run.key].sourceHead in s.commits {
        var source := s.rows[run.key].sourceHead;
        var head := MergedHead(s.commits, st.base, source, sha);
        var t := if head == st.base then s else s.(commits := AddCommit(s.commits, sha, {st.base, source}));
        MovedSideEffects(t, r, Integrating, HeadNote(head), Some(head), Some(Merged(st.base, head)));
      }
  }

  lemma {:induction false} LiveAtTheEndIff(s: Store, acts: seq<Action>, key: Key, h: Holder)
    requires Runs(s, acts)
    ensures HolderLive(After(s, acts), key, h) <==> LiveThroughout(s, acts, key, h) || RegainsAndKeeps(s, acts, key, h)
    decreases |acts|
  {
    hide HolderLive, Enabled, Apply, Regains;
    if acts != [] {
      LiveAtTheEndIff(Apply(s, acts[0]), acts[1..], key, h);
      if !HolderLive(s, key, h) && HolderLive(Apply(s, acts[0]), key, h) {
        OnlyTheseRegain(s, acts[0], key, h);
      }
      if LiveThroughout(Apply(s, acts[0]), acts[1..], key, h) {
        LiveNow(Apply(s, acts[0]), acts[1..], key, h);
      }
    }
  }

  lemma LiveNow(s: Store, acts: seq<Action>, key: Key, h: Holder)
    requires Runs(s, acts) && LiveThroughout(s, acts, key, h)
    ensures HolderLive(s, key, h)
  {
  }

  /** A reset that takes effect overwrites the very row the check saw.  Exactly when the recorded holder regained lease or
      lock between check and reset and kept both, that row is one whose holder is live. */
  lemma ResetHitsLiveHolderIff(s: Store, rid: nat, key: Key, h: Holder, acts: seq<Action>)
    requires Inv(s) && Enabled(s, Check(rid, key)) && s.rows[key].holder == Some(h) && Runs(Apply(s, Check(rid, key)), acts)
    requires var t := After(Apply(s, Check(rid, key)), acts);
             rid in t.runs && t.runs[rid] == Resetting(key, s.rows[key].revision) && Apply(t, Reset(rid)).rows != t.rows
    ensures var u := Apply(s, Check(rid, key));
            var t := After(u, acts);
            && key in t.rows && t.rows[key] == s.rows[key]
            && (HolderLive(t, key, h) <==> RegainsAndKeeps(u, acts, key, h))
  {
    hide Inv, Runs, After, LogOk, LiveThroughout, RegainsAndKeeps;
    var u := Apply(s, Check(rid, key));
    StepKeepsInv(s, Check(rid, key));
    InvAlongRun(u, acts);
    LiveAtTheEndIff(u, acts, key, h);
    if LiveThroughout(u, acts, key, h) {
      LiveNow(u, acts, key, h);
    }
  }

  /** Such a run exists from the very beginning: the lock is free when the check looks, the holder takes it again, and
      then the reset overwrites the row while the holder's own run is still driving it. */
  lemma ResetHitsALiveHolder() returns (acts: seq<Action>)
    ensures Init(ORIGIN) && Runs(ORIGIN, acts)
    ensures var t := After(ORIGIN, acts);
            && Enabled(t, Reset(1)) && A in t.rows && t.rows[A].holder == Some(HOLDER) && HolderLive(t, A, HOLDER)
            && 0 in t.runs && t.runs[0].Driving? && t.runs[0].key == A
            && Apply(t, Reset(1)).rows != t.rows
  {
    hide Runs, After;
    assert Init(ORIGIN) && Runs(ORIGIN, []) && After(ORIGIN, []) == ORIGIN by { StartsAtOrigin(); }
    acts := [];
    RunsSnoc(ORIGIN, acts, SetLease(7, Some(1)));
    acts := acts + [SetLease(7, Some(1))];
    RunsSnoc(ORIGIN, acts, AcquireLock(0, HOLDER));
    acts := acts + [AcquireLock(0, HOLDER)];
    var a := EnqueueReady(After(ORIGIN, acts), A, 1, 1);
    RunsConcat(ORIGIN, acts, a);
    acts := acts + a;
    var s := After(ORIGIN, acts);
    assert s.rows == map[A := ReadyRow(1, 1)];
    var more := HolderReturns(s);
    RunsConcat(ORIGIN, acts, more);
    acts := acts + more;
  }

  lemma HolderReturns(s: Store) returns (acts: seq<Action>)
    requires s.rows == map[A := ReadyRow(1, 1)] && s.runs == map[] && s.leases == map[7 := 1] && s.locks == map[0 := HOLDER]
    ensures Runs(s, acts)
    ensures var t := After(s, acts);
            && Enabled(t, Reset(1)) && A in t.rows && t.rows[A].holder == Some(HOLDER) && HolderLive(t, A, HOLDER)
            && 0 in t.runs && t.runs[0].Driving? && t.runs[0].key == A
            && Apply(t, Reset(1)).rows != t.rows
  {
    hide Runs, After;
    ClaimAndRelease(s);
    var s2 := Apply(Apply(s, Claim(0, A, HOLDER)), ReleaseLock(0, HOLDER));
    CheckAndReturn(s2);
    hide Apply, Enabled;
    assert Runs(s, []) && After(s, []) == s by { EmptyRun(s); }
    RunsSnoc(s, [], Claim(0, A, HOLDER));
    acts := [] + [Claim(0, A, HOLDER)];
    RunsSnoc(s, acts, ReleaseLock(0, HOLDER));
    acts := acts + [ReleaseLock(0, HOLDER)];
    RunsSnoc(s, acts, Check(1, A));
    acts := acts + [Check(1, A)];
    RunsSnoc(s, acts, AcquireLock(0, HOLDER));
    acts := acts + [AcquireLock(0, HOLDER)];
  }

  predicate InFlightUnlocked(s: Store) {
    && A in s.rows && s.rows[A].state == Integrating && s.rows[A].revision == 2 && s.rows[A].holder == Some(HOLDER)
    && s.runs == map[0 := Driving(A, HOLDER, 2, Claimed)] && s.leases == map[7 := 1] && s.locks == map[]
  }

  lemma ClaimAndRelease(s: Store)
    requires s.rows == map[A := ReadyRow(1, 1)] && s.runs == map[] && s.leases == map[7 := 1] && s.locks == map[0 := HOLDER]
    ensures Enabled(s, Claim(0, A, HOLDER))
    ensures var s1 := Apply(s, Claim(0, A, HOLDER));
            Enabled(s1, ReleaseLock(0, HOLDER)) && InFlightUnlocked(Apply(s1, ReleaseLock(0, HOLDER)))
  {
    assert map[0 := HOLDER] - {0} == map[];
  }

  lemma CheckAndReturn(s: Store)
    requires InFlightUnlocked(s)
    ensures Enabled(s, Check(1, A))
    ensures var s1 := Apply(s, Check(1, A));
            var t := Apply(s1, AcquireLock(0, HOLDER));
            && Enabled(s1, AcquireLock(0, HOLDER)) && Enabled(t, Reset(1))
            && A in t.rows && t.rows[A].holder == Some(HOLDER) && HolderLive(t, A, HOLDER)
            && 0 in t.runs && t.runs[0].Driving? && t.runs[0].key == A
            && Apply(t, Reset(1)).rows != t.rows
  {
    var t := Apply(Apply(s, Check(1, A)), AcquireLock(0, HOLDER));
    assert t.rows[A].revision == 2 && t.runs[1] == Resetting(A, 2);
    assert Apply(t, Reset(1)).rows[A].revision == 3;
  }

  lemma EmptyRun(s: Store)
    ensures Runs(s, []) && After(s, []) == s
  {
  }

  // ------------------------------------------------------------------ what still protects the row

  predicate IsStale(s: Store, rid: nat) {
    rid in s.runs ==> s.runs[rid].Driving? && s.runs[rid].key in s.rows && s.runs[rid].revision < s.rows[s.runs[rid].key].revision
  }

  /** A new run may not take the number of the old one. */
  predicate Reuses(a: Action, rid: nat) {
    (a.Claim? || a.Decide? || a.Check?) && a.rid == rid
  }

  /** No step of run `rid` changes a row, all along `acts`. */
  ghost predicate NeverWrites(s: Store, acts: seq<Action>, rid: nat)
    requires Runs(s, acts)
    decreases |acts|
  {
    acts != [] ==>
      && (RunOf(acts[0]) == Some(rid) ==> Apply(s, acts[0]).rows == s.rows)
      && NeverWrites(Apply(s, acts[0]), acts[1..], rid)
  }

  lemma AbsentRunIsSilent(s: Store, a: Action, rid: nat)
    requires Enabled(s, a) && rid !in s.runs && !Reuses(a, rid)
    ensures rid !in Apply(s, a).runs && (RunOf(a) == Some(rid) ==> Apply(s, a).rows == s.rows)
  {
    hide IsBase, IsNextPosition, AddCommit, IsMergeBase, ClassifyMerge, Moved, MergeStep, Advanced, DependencySatisfied;
    if a.Prepare? || a.Test? || a.Finish? || a.Mark? || a.Merge? {
      RunsLeaveLocks(s, a);
    }
  }

  lemma {:induction false} StaleRunNeverWrites(s: Store, acts: seq<Action>, rid: nat)
    requires Inv(s) && Runs(s, acts) && IsStale(s, rid) && forall i :: 0 <= i < |acts| ==> !Reuses(acts[i], rid)
    ensures NeverWrites(s, acts, rid)
    decreases |acts|
  {
    hide Inv, Enabled, Apply;
    if acts != [] {
      StepKeepsInv(s, acts[0]);
      if rid in s.runs {
        StaleRunIsHarmless(s, acts[0], rid);
        StaleStays(s, acts[0], rid);
      } else {
        AbsentRunIsSilent(s, acts[0], rid);
      }
      StaleRunNeverWrites(Apply(s, acts[0]), acts[1..], rid);
    }
  }

  lemma StaleStays(s: Store, a: Action, rid: nat)
    requires Inv(s) && Enabled(s, a) && rid in s.runs && IsStale(s, rid)
    ensures IsStale(Apply(s, a), rid)
  {
    hide Inv, Enabled, Apply;
    StepKeepsInv(s, a);
    StaleRunIsHarmless(s, a, rid);
    if rid in Apply(s, a).runs {
      KnownKey(Apply(s, a), rid);
    }
  }

  lemma KnownKey(s: Store, rid: nat)
    requires Inv(s) && rid in s.runs
    ensures s.runs[rid].key in s.rows
  {
    assert RunOk(s, rid);
  }

  /** Whoever the reset hit: no run that was driving the row can write any row again, whatever follows. */
  lemma InterruptedRunNeverWrites(s: Store, rid: nat, other: nat, acts: seq<Action>)
    requires Inv(s) && Enabled(s, Reset(rid)) && other in s.runs && s.runs[other].Driving?
    requires s.runs[other].key == s.runs[rid].key && Apply(s, Reset(rid)).rows != s.rows
    requires Runs(Apply(s, Reset(rid)), acts) && forall i :: 0 <= i < |acts| ==> !Reuses(acts[i], other)
    ensures NeverWrites(Apply(s, Reset(rid)), acts, other)
  {
    hide Inv, Runs, NeverWrites;
    var t := Apply(s, Reset(rid));
    StepKeepsInv(s, Reset(rid));
    ResetStrandsRuns(s, rid, other);
    KnownKey(t, other);
    assert t.runs[other] == s.runs[other];
    StaleRunNeverWrites(t, acts, other);
  }

  // ------------------------------------------------------------------ a reset loses no work

  /** What a reset leaves is taken up again: with its prerequisite INTEGRATED and the review clear, evaluation makes the very
      same candidate READY, and any holder of lease and lock may claim it. */
  lemma ResetIsTakenUpAgain(s: Store, rid: nat, next: nat)
    requires Inv(s) && Enabled(s, Reset(rid)) && Apply(s, Reset(rid)).rows != s.rows
    requires next !in Apply(s, Reset(rid)).runs
    ensures var key := s.runs[rid].key;
            var t := Apply(s, Reset(rid));
            var d, p := Decide(next, key, true), Promote(next);
            && key in s.rows && s.rows[key].state == Integrating && DependencySatisfied(s, key)
            && key in t.rows && t.rows[key].state == Pending && t.rows[key].holder == None
            && Enabled(t, d) && Enabled(Apply(t, d), p)
            && var u := Apply(Apply(t, d), p);
               && key in u.rows && u.rows[key].state == Ready && SameWork(s.rows[key], u.rows[key])
               && (forall k :: k in s.rows && k != key ==> k in u.rows && u.rows[k] == s.rows[k])
               && (forall h :: HoldsLease(s, h) && HoldsLock(s, key.queue, h) ==> Enabled(u, Claim(next, key, h)))
  {
    hide Inv, Apply, Enabled, DependencySatisfied;
    ResetLeaves(s, rid);
    Retried(Apply(s, Reset(rid)), s.runs[rid].key, next);
  }

  lemma ResetLeaves(s: Store, rid: nat)
    requires Inv(s) && Enabled(s, Reset(rid)) && Apply(s, Reset(rid)).rows != s.rows
    ensures rid in s.runs
    ensures var key := s.runs[rid].key;
            var t := Apply(s, Reset(rid));
            && key in s.rows && s.rows[key].state == Integrating && DependencySatisfied(s, key)
            && key in t.rows && t.rows == s.rows[key := t.rows[key]] && t.rows[key].state == Pending && t.rows[key].holder == None
            && SameWork(s.rows[key], t.rows[key]) && DependencySatisfied(t, key) && t.leases == s.leases && t.locks == s.locks
            && forall k :: k in t.rows && k.queue == key.queue ==> t.rows[k].state != Integrating
  {
    hide LogOk, StageOk, RunOk;
    var key := s.runs[rid].key;
    assert RowOk(s, key);
  }

  lemma Retried(t: Store, key: Key, next: nat)
    requires key in t.rows && t.rows[key].state == Pending && DependencySatisfied(t, key) && next !in t.runs
    requires forall k :: k in t.rows && k.queue == key.queue ==> t.rows[k].state != Integrating
    ensures var d, p := Decide(next, key, true), Promote(next);
            && Enabled(t, d) && Enabled(Apply(t, d), p)
            && var u := Apply(Apply(t, d), p);
               && key in u.rows && u.rows == t.rows[key := u.rows[key]] && u.rows[key].state == Ready
               && u.rows[key].holder == t.rows[key].holder && SameWork(t.rows[key], u.rows[key])
               && (forall h :: HoldsLease(t, h) && HoldsLock(t, key.queue, h) ==> Enabled(u, Claim(next, key, h)))
  {
    var t1 := Apply(t, Decide(next, key, true));
    assert t1.rows == t.rows;
  }

  predicate SameWork(r: Row, t: Row) {
    t.(state := r.state, holder := r.holder, revision := r.revision, log := r.log) == r
  }

  // ------------------------------------------------------------------ locks and dependencies as stored

  /** Nobody takes the lock of a live holder: it stays until that holder gives it up, or its lease ends. */
  lemma LiveLockIsKept(s: Store, a: Action, queue: nat)
    requires Enabled(s, a) && queue in s.locks && HoldsLease(s, s.locks[queue])
    requires a != ReleaseLock(queue, s.locks[queue])
    ensures queue in Apply(s, a).locks && Apply(s, a).locks[queue] == s.locks[queue]
  {
    hide IsBase, IsNextPosition, AddCommit, IsMergeBase, ClassifyMerge, Moved, MergeStep, DependencySatisfied;
    if a.Prepare? || a.Test? || a.Finish? || a.Mark? || a.Merge? {
      RunsLeaveLocks(s, a);
    }
  }

  /** Acquiring works exactly when the lock is free, is the holder's own, or its holder's lease has ended. */
  lemma AcquireIff(s: Store, queue: nat, h: Holder)
    requires HoldsLease(s, h)
    ensures HoldsLock(Apply(s, AcquireLock(queue, h)), queue, h) <==>
              queue !in s.locks || s.locks[queue] == h || !HoldsLease(s, s.locks[queue])
  {
  }

  /** An explicit dependency is stored as it is given; without one, the source job's own becomes the candidate of that job in
      the same queue, so that it is local. */
  lemma EnqueueStores(s: Store, key: Key, position: nat, dependsOn: Option<Ref>, jobDependsOn: Option<nat>, priority: int, source: Sha, base: Sha)
    requires key !in s.rows && Enabled(s, Enqueue(key, position, dependsOn, jobDependsOn, priority, source, base))
    ensures var t := Apply(s, Enqueue(key, position, dependsOn, jobDependsOn, priority, source, base));
            && key in t.rows && (forall k :: k in s.rows ==> k in t.rows && t.rows[k] == s.rows[k])
            && var r := t.rows[key];
               && r.state == Pending && r.revision == 0 && r.position == position && r.priority == priority && r.sourceHead == source && r.claimedBase == base
               && (dependsOn.Some? ==> r.dependsOn == dependsOn)
               && (dependsOn.None? && jobDependsOn.Some? ==> r.dependsOn == Some(ToCandidate(Key(key.queue, jobDependsOn.value))))
               && (dependsOn.None? && jobDependsOn.None? ==> r.dependsOn == None)
  {
    hide IsNextPosition;
  }
}
