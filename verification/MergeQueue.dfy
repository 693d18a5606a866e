// argent_core/merge_queue.py: the merge queue over its rows
module MergeQueue {
  /*
   The merge queue (argent_core/merge_queue.py) as a state machine over its store rows: enqueueing,
   evaluation, the fenced integration of one candidate, and crash recovery, with any number of runs
   interleaved and with leases, locks and branches changing underneath them.

   A row keeps the list of its committed transitions beside its revision number; nothing reads it.
   */
  import opened Wrappers
  import opened CommitGraph
  import opened IntegrationOrder

  /** A candidate id is an injective digest of (queue, source job); a queue is a (repository, target) pair. */
  datatype Key = Key(queue: nat, job: nat)
  datatype Ref = ToCandidate(key: Key) | ToJob(job: nat)
  datatype Holder = Holder(job: nat, epoch: nat)

  datatype Note = ClaimNote | PrepareNote | HeadNote(head: Sha) | EvidenceNote(done: bool) | CloseNote | OtherNote
  datatype Entry = Entry(from: CandidateState, to: CandidateState, who: Option<Holder>, note: Note)

  datatype Row = Row(position: nat, priority: int, dependsOn: Option<Ref>, sourceHead: Sha, claimedBase: Sha,
                     state: CandidateState, revision: nat, holder: Option<Holder>, head: Option<Sha>, log: seq<Entry>)

  /** How far a run has come with its candidate; the revision is the one its own last transition wrote. */
  datatype Stage = Claimed | Based(base: Sha) | Prepared(base: Sha) | Merged(base: Sha, head: Sha) | Tested(base: Sha, head: Sha, done: bool)
  datatype Run =
    | Driving(key: Key, holder: Holder, revision: nat, stage: Stage)
    | Promoting(key: Key, from: CandidateState, to: CandidateState, revision: nat)
    | Resetting(key: Key, revision: nat)

  datatype Store = Store(rows: map<Key, Row>, leases: map<nat, nat>, locks: map<nat, Holder>, runs: map<nat, Run>,
                         commits: Graph, tips: map<nat, Sha>, finished: seq<Key>)

  datatype Action =
    | Enqueue(key: Key, position: nat, dependsOn: Option<Ref>, jobDependsOn: Option<nat>, priority: int, sourceHead: Sha, claimedBase: Sha)
    | Decide(rid: nat, key: Key, reviewOk: bool)
    | Promote(rid: nat)
    | SetLease(job: nat, epoch: Option<nat>)
    | AcquireLock(queue: nat, holder: Holder)
    | ReleaseLock(queue: nat, holder: Holder)
    | ReclaimLock(queue: nat)
    | Claim(rid: nat, key: Key, holder: Holder)
    | ReadBase(rid: nat, base: Sha, mergeBase: Option<Sha>, conflicts: Option<bool>)
    | Prepare(rid: nat)
    | Merge(rid: nat, sha: Sha)
    | Test(rid: nat, done: bool)
    | Finish(rid: nat)
    | Mark(rid: nat, to: CandidateState)
    | Check(rid: nat, key: Key)
    | Reset(rid: nat)
    | Block(key: Key)
    | Crash(rid: nat)
    | Push(sha: Sha, parents: set<Sha>)
    | MoveTip(queue: nat, sha: Sha)

  // ------------------------------------------------------------------ reading the store

  function Prerequisite(key: Key, dep: Ref): Key {
    match dep
    case ToCandidate(k) => k
    case ToJob(j) => Key(key.queue, j)
  }

  predicate IsIntegrated(s: Store, key: Key) {
    key in s.rows && s.rows[key].state == Integrated
  }

  predicate DependencySatisfied(s: Store, key: Key)
    requires key in s.rows
  {
    s.rows[key].dependsOn.Some? ==> IsIntegrated(s, Prerequisite(key, s.rows[key].dependsOn.value))
  }

  predicate HoldsLease(s: Store, h: Holder) {
    h.epoch >= 1 && h.job in s.leases && s.leases[h.job] == h.epoch
  }

  predicate HoldsLock(s: Store, queue: nat, h: Holder) {
    queue in s.locks && s.locks[queue] == h
  }

  /** The order in which the rows of a queue are listed. */
  predicate ListedBefore(s: Store, a: Key, b: Key)
    requires a in s.rows && b in s.rows
  {
    var x, y := s.rows[a], s.rows[b];
    x.position < y.position || (x.position == y.position && (x.priority > y.priority || (x.priority == y.priority && a.job < b.job)))
  }

  ghost predicate IsNextPosition(s: Store, queue: nat, position: nat) {
    && (forall k :: k in s.rows && k.queue == queue ==> s.rows[k].position < position)
    && (position == 1 || exists k :: k in s.rows && k.queue == queue && s.rows[k].position + 1 == position)
  }

  ghost predicate IsLastListed(s: Store, queue: nat, key: Key) {
    && IsIntegrated(s, key) && key.queue == queue
    && forall k :: IsIntegrated(s, k) && k.queue == queue && k != key ==> ListedBefore(s, k, key)
  }

  /** `_current_integration_base`: the head of the last INTEGRATED candidate in listing order, else the tip. */
  ghost predicate IsBase(s: Store, queue: nat, base: Sha) {
    || (exists k :: IsLastListed(s, queue, k) && s.rows[k].head == Some(base))
    || ((forall k: Key :: IsIntegrated(s, k) ==> k.queue != queue) && queue in s.tips && s.tips[queue] == base)
  }

  // ------------------------------------------------------------------ transitions

  function Advanced(r: Row, to: CandidateState, who: Option<Holder>, note: Note): Row {
    r.(state := to, revision := r.revision + 1, log := r.log + [Entry(r.state, to, who, note)])
  }

  /** The holder-verified transition of a run: it commits only for the holder of both lease and lock,
      on the very revision the run wrote last. */
  predicate CanMove(s: Store, rid: nat) {
    && rid in s.runs && s.runs[rid].Driving? && s.runs[rid].key in s.rows
    && HoldsLease(s, s.runs[rid].holder) && HoldsLock(s, s.runs[rid].key.queue, s.runs[rid].holder)
    && s.rows[s.runs[rid].key].state == Integrating && s.rows[s.runs[rid].key].revision == s.runs[rid].revision
  }

  function Moved(s: Store, rid: nat, to: CandidateState, note: Note, head: Option<Sha>, next: Option<Stage>): Store
    requires rid in s.runs && s.runs[rid].Driving?
  {
    var run := s.runs[rid];
    if !CanMove(s, rid) then s.(runs := s.runs - {rid})
    else
      var r := s.rows[run.key];
      s.(rows := s.rows[run.key := Advanced(r, to, Some(run.holder), note).(holder := Some(run.holder), head := if head.Some? then head else r.head)],
         runs := if next.Some? then s.runs[rid := run.(revision := r.revision + 1, stage := next.value)] else s.runs - {rid},
         finished := if to == Integrated then s.finished + [run.key] else s.finished)
  }

  /** The merge commit, or the base itself when there is nothing to merge. */
  function MergedHead(g: Graph, base: Sha, source: Sha, sha: Sha): Sha {
    if IsAncestor(g, source, base) then base else sha
  }

  ghost predicate Enabled(s: Store, a: Action) {
    match a
    case Enqueue(key, position, dependsOn, jobDependsOn, priority, sourceHead, claimedBase) =>
      key in s.rows || (IsNextPosition(s, key.queue, position) && IsAncestor(s.commits, claimedBase, sourceHead))
    case Decide(rid, key, reviewOk) => rid !in s.runs && key in s.rows && s.rows[key].state in {Pending, Stale}
    case Promote(rid) => rid in s.runs && s.runs[rid].Promoting?
    case AcquireLock(queue, holder) => HoldsLease(s, holder)
    case Claim(rid, key, holder) =>
      && rid !in s.runs && key in s.rows && s.rows[key].state == Ready
      && HoldsLease(s, holder) && HoldsLock(s, key.queue, holder)
      && forall k :: k in s.rows && k.queue == key.queue ==> s.rows[k].state != Integrating
    case ReadBase(rid, base, mergeBase, conflicts) =>
      && rid in s.runs && s.runs[rid].Driving? && s.runs[rid].stage == Claimed && s.runs[rid].key in s.rows
      && IsBase(s, s.runs[rid].key.queue, base)
      && base in s.commits && IsMergeBase(s.commits, mergeBase, base, s.rows[s.runs[rid].key].sourceHead)
      && var r := s.rows[s.runs[rid].key];
         ClassifyMerge(s.commits, Some(base), Some(r.sourceHead), Some(r.claimedBase),
                       DependencySatisfied(s, s.runs[rid].key), mergeBase, conflicts) in {CleanApply, DivergedClean}
    case Prepare(rid) => rid in s.runs && s.runs[rid].Driving? && s.runs[rid].stage.Based?
    case Merge(rid, sha) => rid in s.runs && s.runs[rid].Driving? && s.runs[rid].stage.Prepared? && sha !in s.commits
    case Test(rid, done) => rid in s.runs && s.runs[rid].Driving? && s.runs[rid].stage.Merged?
    case Finish(rid) => rid in s.runs && s.runs[rid].Driving? && s.runs[rid].stage.Tested?
    case Mark(rid, to) => rid in s.runs && s.runs[rid].Driving? && to in {Failed, Stale, Conflicted, Pending}
    case Check(rid, key) =>
      && rid !in s.runs && key in s.rows && s.rows[key].state == Integrating
      && !(s.rows[key].holder.Some? && HoldsLease(s, s.rows[key].holder.value) && HoldsLock(s, key.queue, s.rows[key].holder.value))
    case Reset(rid) => rid in s.runs && s.runs[rid].Resetting?
    case Block(key) => WouldBlock(s, key)
    case Push(sha, parents) => sha !in s.commits && parents <= s.commits.Keys
    case MoveTip(queue, sha) => sha in s.commits
    case _ => true
  }

  /** What a blocked candidate needs: a prerequisite that is listed in the same queue and READY. */
  predicate WouldBlock(s: Store, key: Key) {
    && key in s.rows && s.rows[key].state == Ready && s.rows[key].dependsOn.Some? && s.rows[key].dependsOn.value.ToCandidate?
    && var k := s.rows[key].dependsOn.value.key;
       k.queue == key.queue && k in s.rows && s.rows[k].state == Ready
  }

  function RunOf(a: Action): Option<nat> {
    match a
    case Decide(rid, _, _) => Some(rid)
    case Promote(rid) => Some(rid)
    case Claim(rid, _, _) => Some(rid)
    case ReadBase(rid, _, _, _) => Some(rid)
    case Prepare(rid) => Some(rid)
    case Merge(rid, _) => Some(rid)
    case Test(rid, _) => Some(rid)
    case Finish(rid) => Some(rid)
    case Mark(rid, _) => Some(rid)
    case Check(rid, _) => Some(rid)
    case Reset(rid) => Some(rid)
    case Crash(rid) => Some(rid)
    case _ => None
  }

  function Apply(s: Store, a: Action): Store
    requires Enabled(s, a)
  {
    match a
    case Enqueue(key, position, dependsOn, jobDependsOn, priority, sourceHead, claimedBase) =>
      if key in s.rows then s
      else
        var dep := if dependsOn.Some? then dependsOn
                   else if jobDependsOn.Some? then Some(ToCandidate(Key(key.queue, jobDependsOn.value))) else None;
        s.(rows := s.rows[key := Row(position, priority, dep, sourceHead, claimedBase, Pending, 0, None, None, [])])
    case Decide(rid, key, reviewOk) =>
      s.(runs := s.runs[rid := Promoting(key, s.rows[key].state,
                                         if DependencySatisfied(s, key) && reviewOk then Ready else Pending, s.rows[key].revision)])
    case Promote(rid) =>
      var run := s.runs[rid];
      var t := s.(runs := s.runs - {rid});
      if run.key in s.rows && s.rows[run.key].state == run.from && s.rows[run.key].revision == run.revision
      then t.(rows := s.rows[run.key := Advanced(s.rows[run.key], run.to, None, OtherNote)])
      else t
    case SetLease(job, epoch) => s.(leases := if epoch.Some? then s.leases[job := epoch.value] else s.leases - {job})
    case AcquireLock(queue, holder) =>
      if queue !in s.locks || !HoldsLease(s, s.locks[queue]) then s.(locks := s.locks[queue := holder]) else s
    case ReleaseLock(queue, holder) => if HoldsLock(s, queue, holder) then s.(locks := s.locks - {queue}) else s
    case ReclaimLock(queue) =>
      if queue in s.locks && !HoldsLease(s, s.locks[queue]) then s.(locks := s.locks - {queue}) else s
    case Claim(rid, key, holder) =>
      s.(rows := s.rows[key := Advanced(s.rows[key], Integrating, Some(holder), ClaimNote).(holder := Some(holder))],
         runs := s.runs[rid := Driving(key, holder, s.rows[key].revision + 1, Claimed)])
    case ReadBase(rid, base, mergeBase, conflicts) => s.(runs := s.runs[rid := s.runs[rid].(stage := Based(base))])
    case Prepare(rid) => Moved(s, rid, Integrating, PrepareNote, None, Some(Prepared(s.runs[rid].stage.base)))
    case Merge(rid, sha) => MergeStep(s, rid, sha)
    case Test(rid, done) =>
      var st := s.runs[rid].stage;
      Moved(s, rid, Integrating, EvidenceNote(done), None, Some(Tested(st.base, st.head, done)))
    case Finish(rid) =>
      var st := s.runs[rid].stage;
      if st.done then Moved(s, rid, Integrated, CloseNote, Some(st.head), None)
      else Moved(s, rid, Failed, CloseNote, None, None)
    case Mark(rid, to) => Moved(s, rid, to, OtherNote, None, None)
    case Check(rid, key) => s.(runs := s.runs[rid := Resetting(key, s.rows[key].revision)])
    case Reset(rid) =>
      var run := s.runs[rid];
      var t := s.(runs := s.runs - {rid});
      if run.key in s.rows && s.rows[run.key].state == Integrating && s.rows[run.key].revision == run.revision
      then t.(rows := s.rows[run.key := Advanced(s.rows[run.key], Pending, None, OtherNote).(holder := None)])
      else t
    case Block(key) => s.(rows := s.rows[key := Advanced(s.rows[key], Blocked, None, OtherNote)])
    case Crash(rid) => s.(runs := s.runs - {rid})
    case Push(sha, parents) => s.(commits := AddCommit(s.commits, sha, parents))
    case MoveTip(queue, sha) => s.(tips := s.tips[queue := sha])
  }

  /** The merge commit is made in the worktree whether or not the row can still be written. */
  function MergeStep(s: Store, rid: nat, sha: Sha): Store
    requires rid in s.runs && s.runs[rid].Driving? && s.runs[rid].stage.Prepared? && sha !in s.commits
  {
    var run := s.runs[rid];
    var base := run.stage.base;
    if run.key !in s.rows || base !in s.commits || s.rows[run.key].sourceHead !in s.commits then s.(runs := s.runs - {rid})
    else
      var source := s.rows[run.key].sourceHead;
      var head := MergedHead(s.commits, base, source, sha);
      var t := if head == base then s else s.(commits := AddCommit(s.commits, sha, {base, source}));
      Moved(t, rid, Integrating, HeadNote(head), Some(head), Some(Merged(base, head)))
  }

  ghost predicate Runs(s: Store, acts: seq<Action>)
    decreases |acts|
  {
    acts != [] ==> Enabled(s, acts[0]) && Runs(Apply(s, acts[0]), acts[1..])
  }

  ghost function After(s: Store, acts: seq<Action>): Store
    requires Runs(s, acts)
    decreases |acts|
  {
    if acts == [] then s else After(Apply(s, acts[0]), acts[1..])
  }

  ghost predicate Init(s: Store) {
    s.rows == map[] && s.runs == map[] && s.finished == [] && ValidGraph(s.commits)
    && forall q :: q in s.tips ==> s.tips[q] in s.commits
  }

  // ------------------------------------------------------------------ invariants of rows and runs

  /** The five transitions of one uninterrupted run, ending at entry `i`. */
  predicate Uninterrupted(log: seq<Entry>, i: nat, head: Option<Sha>) {
    && 4 <= i < |log| && head.Some? && log[i].who.Some?
    && log[i - 4] == Entry(Ready, Integrating, log[i].who, ClaimNote)
    && log[i - 3] == Entry(Integrating, Integrating, log[i].who, PrepareNote)
    && log[i - 2] == Entry(Integrating, Integrating, log[i].who, HeadNote(head.value))
    && log[i - 1] == Entry(Integrating, Integrating, log[i].who, EvidenceNote(true))
    && log[i] == Entry(Integrating, Integrated, log[i].who, CloseNote)
  }

  predicate LogOk(r: Row) {
    && |r.log| == r.revision
    && r.state == (if r.log == [] then Pending else r.log[|r.log|-1].to)
    && (forall i :: 0 <= i < |r.log| ==> r.log[i].from == (if i == 0 then Pending else r.log[i - 1].to) && r.log[i].from != Integrated)
    && (forall i :: 0 <= i < |r.log| && r.log[i].to == Integrated ==> Uninterrupted(r.log, i, r.head))
  }

  /** What the last entries of a row say while a run is at a stage and the row is still as it left it. */
  predicate StageOk(r: Row, run: Run)
    requires run.Driving?
  {
    var n := |r.log|;
    var h := Some(run.holder);
    && r.state == Integrating && r.holder == h
    && match run.stage
       case Claimed => n >= 1 && r.log[n - 1] == Entry(Ready, Integrating, h, ClaimNote)
       case Based(_) => n >= 1 && r.log[n - 1] == Entry(Ready, Integrating, h, ClaimNote)
       case Prepared(_) => n >= 2 && r.log[n - 2] == Entry(Ready, Integrating, h, ClaimNote)
                           && r.log[n - 1] == Entry(Integrating, Integrating, h, PrepareNote)
       case Merged(_, head) => n >= 3 && r.log[n - 3] == Entry(Ready, Integrating, h, ClaimNote)
                               && r.log[n - 2] == Entry(Integrating, Integrating, h, PrepareNote)
                               && r.log[n - 1] == Entry(Integrating, Integrating, h, HeadNote(head)) && r.head == Some(head)
       case Tested(_, head, done) => n >= 4 && r.log[n - 4] == Entry(Ready, Integrating, h, ClaimNote)
                                     && r.log[n - 3] == Entry(Integrating, Integrating, h, PrepareNote)
                                     && r.log[n - 2] == Entry(Integrating, Integrating, h, HeadNote(head)) && r.head == Some(head)
                                     && r.log[n - 1] == Entry(Integrating, Integrating, h, EvidenceNote(done))
  }

  predicate RowOk(s: Store, key: Key) {
    key in s.rows ==>
      && LogOk(s.rows[key]) && s.rows[key].state != Blocked
      && (s.rows[key].state in {Ready, Integrating, Integrated} ==> DependencySatisfied(s, key))
  }

  predicate RunOk(s: Store, rid: nat) {
    rid in s.runs ==>
      var run := s.runs[rid];
      && run.key in s.rows && run.revision <= s.rows[run.key].revision
      && match run
         case Driving(key, holder, revision, stage) => revision == s.rows[key].revision ==> StageOk(s.rows[key], run)
         case Promoting(key, from, to, revision) =>
           from in {Pending, Stale} && to in {Pending, Ready} && (to == Ready ==> DependencySatisfied(s, key))
         case Resetting(key, revision) => true
  }

  /** The unique index: one INTEGRATING row per queue. */
  ghost predicate OneIntegrating(s: Store) {
    forall k, l :: k in s.rows && l in s.rows && s.rows[k].state == s.rows[l].state == Integrating && k.queue == l.queue ==> k == l
  }

  ghost predicate Inv(s: Store) {
    (forall key :: RowOk(s, key)) && (forall rid :: RunOk(s, rid)) && OneIntegrating(s)
  }

  // ------------------------------------------------------------------ preservation

  /** Nothing that is recorded is lost: revisions only grow, a row with the same revision is the same row,
      and INTEGRATED rows stay INTEGRATED. */
  ghost predicate Grows(s: Store, t: Store) {
    forall k :: k in s.rows ==>
      && k in t.rows && s.rows[k].revision <= t.rows[k].revision && t.rows[k].dependsOn == s.rows[k].dependsOn
      && (s.rows[k].revision == t.rows[k].revision ==> t.rows[k] == s.rows[k])
      && (s.rows[k].state == Integrated ==> t.rows[k] == s.rows[k])
  }

  lemma SatisfiedStays(s: Store, t: Store, key: Key)
    requires Grows(s, t) && key in s.rows && DependencySatisfied(s, key)
    ensures DependencySatisfied(t, key)
  {
  }

  lemma UntouchedRun(s: Store, t: Store, rid: nat)
    requires RunOk(s, rid) && Grows(s, t) && (rid in t.runs ==> rid in s.runs && t.runs[rid] == s.runs[rid])
    ensures RunOk(t, rid)
  {
    hide StageOk;
    if rid in t.runs && s.runs[rid].Promoting? && s.runs[rid].to == Ready {
      SatisfiedStays(s, t, s.runs[rid].key);
    }
  }

  lemma UntouchedRow(s: Store, t: Store, key: Key)
    requires RowOk(s, key) && Grows(s, t) && (key in t.rows ==> key in s.rows && t.rows[key] == s.rows[key])
    ensures RowOk(t, key)
  {
    hide LogOk;
    if key in t.rows && DependencySatisfied(s, key) {
      SatisfiedStays(s, t, key);
    }
  }

  lemma SnocLog(r: Row, t: Row, e: Entry, i: nat)
    requires LogOk(r) && r.state != Integrated && t.log == r.log + [e] && e.from == r.state && i < |t.log|
    ensures t.log[i].from == (if i == 0 then Pending else t.log[i - 1].to) && t.log[i].from != Integrated
    ensures i < |r.log| ==> t.log[i] == r.log[i] && t.log[i].to != Integrated
  {
    assert i < |r.log| ==> t.log[i] == r.log[i];
    assert i > 0 ==> t.log[i - 1] == r.log[i - 1];
    assert i + 1 < |r.log| ==> r.log[i + 1].from != Integrated;
  }

  /** A transition out of any state but INTEGRATED, into any state but INTEGRATED, keeps the log. */
  lemma AdvanceKeepsLog(r: Row, t: Row, e: Entry)
    requires LogOk(r) && r.state != Integrated && t.log == r.log + [e] && e.from == r.state
    requires t.state == e.to != Integrated && t.revision == r.revision + 1
    ensures LogOk(t)
  {
    forall i | 0 <= i < |t.log|
      ensures t.log[i].from == (if i == 0 then Pending else t.log[i - 1].to) && t.log[i].from != Integrated && t.log[i].to != Integrated
    {
      SnocLog(r, t, e, i);
    }
  }

  /** The closing transition of a run that still stands where it left the row. */
  lemma CloseKeepsLog(r: Row, t: Row, run: Run)
    requires LogOk(r) && run.Driving? && StageOk(r, run) && run.stage.Tested? && run.stage.done
    requires t.log == r.log + [Entry(Integrating, Integrated, Some(run.holder), CloseNote)]
    requires t.state == Integrated && t.revision == r.revision + 1 && t.head == Some(run.stage.head)
    ensures LogOk(t)
  {
    var e := Entry(Integrating, Integrated, Some(run.holder), CloseNote);
    forall i | 0 <= i < |t.log|
      ensures t.log[i].from == (if i == 0 then Pending else t.log[i - 1].to) && t.log[i].from != Integrated
      ensures t.log[i].to == Integrated ==> Uninterrupted(t.log, i, t.head)
    {
      SnocLog(r, t, e, i);
    }
  }

  /** One row written, at most one run changed: what is left to show for the invariant. */
  lemma WriteKeepsInv(s: Store, t: Store, key: Key, rid: Option<nat>)
    requires Inv(s) && key in s.rows && t.rows.Keys == s.rows.Keys
    requires forall k :: k in s.rows && k != key ==> t.rows[k] == s.rows[k]
    requires s.rows[key].state != Integrated && t.rows[key].revision == s.rows[key].revision + 1
    requires t.rows[key].dependsOn == s.rows[key].dependsOn && LogOk(t.rows[key]) && t.rows[key].state != Blocked
    requires t.rows[key].state in {Ready, Integrating, Integrated} ==> DependencySatisfied(s, key)
    requires t.rows[key].state == Integrating ==>
               s.rows[key].state == Integrating || forall k :: k in s.rows && k.queue == key.queue ==> s.rows[k].state != Integrating
    requires forall r :: r in t.runs && rid != Some(r) ==> r in s.runs && t.runs[r] == s.runs[r]
    requires rid.Some? ==> RunOk(t, rid.value)
    ensures Inv(t) && Grows(s, t)
  {
    hide LogOk, RunOk;
    assert Grows(s, t);
    forall k ensures RowOk(t, k) {
      assert RowOk(s, k);
      if k != key {
        UntouchedRow(s, t, k);
      } else if DependencySatisfied(s, key) {
        SatisfiedStays(s, t, key);
      }
    }
    forall r: nat ensures RunOk(t, r) {
      assert RunOk(s, r);
      if rid != Some(r) {
        UntouchedRun(s, t, r);
      }
    }
  }

  /** No row written. */
  lemma QuietKeepsInv(s: Store, t: Store, rid: Option<nat>)
    requires Inv(s) && t.rows == s.rows
    requires forall r :: r in t.runs && rid != Some(r) ==> r in s.runs && t.runs[r] == s.runs[r]
    requires rid.Some? ==> RunOk(t, rid.value)
    ensures Inv(t) && Grows(s, t)
  {
    hide LogOk, RunOk;
    assert Grows(s, t);
    forall k ensures RowOk(t, k) {
      assert RowOk(s, k);
      UntouchedRow(s, t, k);
    }
    forall r: nat ensures RunOk(t, r) {
      assert RunOk(s, r);
      if rid != Some(r) {
        UntouchedRun(s, t, r);
      }
    }
  }

  lemma MovedKeepsInv(s: Store, rid: nat, to: CandidateState, note: Note, head: Option<Sha>, next: Option<Stage>)
    requires Inv(s) && rid in s.runs && s.runs[rid].Driving? && to !in {Ready, Blocked}
    requires CanMove(s, rid) && to == Integrated ==>
               s.runs[rid].stage.Tested? && s.runs[rid].stage.done && note == CloseNote && head == Some(s.runs[rid].stage.head)
    requires CanMove(s, rid) && next.Some? ==>
               to == Integrating && StageOk(Moved(s, rid, to, note, head, next).rows[s.runs[rid].key], Moved(s, rid, to, note, head, next).runs[rid])
    ensures Inv(Moved(s, rid, to, note, head, next)) && Grows(s, Moved(s, rid, to, note, head, next))
  {
    hide StageOk, LogOk, IsIntegrated;
    var t := Moved(s, rid, to, note, head, next);
    var key := s.runs[rid].key;
    assert RunOk(s, rid);
    if CanMove(s, rid) {
      assert RowOk(s, key);
      var e := Entry(Integrating, to, Some(s.runs[rid].holder), note);
      if to == Integrated {
        CloseKeepsLog(s.rows[key], t.rows[key], s.runs[rid]);
      } else {
        AdvanceKeepsLog(s.rows[key], t.rows[key], e);
      }
      WriteKeepsInv(s, t, key, Some(rid));
    } else {
      QuietKeepsInv(s, t, None);
    }
  }

  lemma DriveKeepsInv(s: Store, a: Action)
    requires Inv(s) && Enabled(s, a) && (a.Prepare? || a.Test? || a.Finish? || a.Mark?)
    ensures Inv(Apply(s, a)) && Grows(s, Apply(s, a))
  {
    hide Inv, LogOk, Grows, OneIntegrating;
    assert RunOk(s, a.rid) by { InvOf(s, a.rid); }
    var run := s.runs[a.rid];
    match a
    case Prepare(rid) => MovedKeepsInv(s, rid, Integrating, PrepareNote, None, Some(Prepared(run.stage.base)));
    case Test(rid, done) =>
      MovedKeepsInv(s, rid, Integrating, EvidenceNote(done), None, Some(Tested(run.stage.base, run.stage.head, done)));
    case Finish(rid) =>
      if run.stage.done {
        MovedKeepsInv(s, rid, Integrated, CloseNote, Some(run.stage.head), None);
      } else {
        MovedKeepsInv(s, rid, Failed, CloseNote, None, None);
      }
    case Mark(rid, to) => MovedKeepsInv(s, rid, to, OtherNote, None, None);
  }

  lemma InvOf(s: Store, rid: nat)
    requires Inv(s)
    ensures RunOk(s, rid) && (rid in s.runs ==> RowOk(s, s.runs[rid].key))
  {
  }

  lemma GraphIsNoRow(s: Store, t: Store)
    requires Inv(s) && t.rows == s.rows && t.runs == s.runs
    ensures Inv(t)
  {
    QuietKeepsInv(s, t, None);
  }

  lemma MergeKeepsInv(s: Store, rid: nat, sha: Sha)
    requires Inv(s) && Enabled(s, Merge(rid, sha))
    ensures Inv(MergeStep(s, rid, sha)) && Grows(s, MergeStep(s, rid, sha))
  {
    hide Inv, LogOk, OneIntegrating, AddCommit;
    var run := s.runs[rid];
    var base := run.stage.base;
    if run.key !in s.rows || base !in s.commits || s.rows[run.key].sourceHead !in s.commits {
      QuietKeepsInv(s, MergeStep(s, rid, sha), None);
    } else {
      var source := s.rows[run.key].sourceHead;
      var head := MergedHead(s.commits, base, source, sha);
      var t := if head == base then s else s.(commits := AddCommit(s.commits, sha, {base, source}));
      GraphIsNoRow(s, t);
      InvOf(t, rid);
      MovedKeepsInv(t, rid, Integrating, HeadNote(head), Some(head), Some(Merged(base, head)));
    }
  }

  lemma PromoteKeepsInv(s: Store, rid: nat)
    requires Inv(s) && Enabled(s, Promote(rid))
    ensures Inv(Apply(s, Promote(rid))) && Grows(s, Apply(s, Promote(rid)))
  {
    hide LogOk, OneIntegrating;
    var t := Apply(s, Promote(rid));
    var run := s.runs[rid];
    InvOf(s, rid);
    if t.rows != s.rows {
      AdvanceKeepsLog(s.rows[run.key], t.rows[run.key], Entry(run.from, run.to, None, OtherNote));
      WriteKeepsInv(s, t, run.key, None);
    } else {
      QuietKeepsInv(s, t, None);
    }
  }

  lemma ResetKeepsInv(s: Store, rid: nat)
    requires Inv(s) && Enabled(s, Reset(rid))
    ensures Inv(Apply(s, Reset(rid))) && Grows(s, Apply(s, Reset(rid)))
  {
    hide LogOk, OneIntegrating;
    var t := Apply(s, Reset(rid));
    var run := s.runs[rid];
    InvOf(s, rid);
    if t.rows != s.rows {
      AdvanceKeepsLog(s.rows[run.key], t.rows[run.key], Entry(Integrating, Pending, None, OtherNote));
      WriteKeepsInv(s, t, run.key, None);
    } else {
      QuietKeepsInv(s, t, None);
    }
  }

  lemma ClaimKeepsInv(s: Store, rid: nat, key: Key, holder: Holder)
    requires Inv(s) && Enabled(s, Claim(rid, key, holder))
    ensures Inv(Apply(s, Claim(rid, key, holder))) && Grows(s, Apply(s, Claim(rid, key, holder)))
  {
    hide OneIntegrating;
    var t := Apply(s, Claim(rid, key, holder));
    assert RowOk(s, key);
    AdvanceKeepsLog(s.rows[key], t.rows[key], Entry(Ready, Integrating, Some(holder), ClaimNote));
    WriteKeepsInv(s, t, key, Some(rid));
  }

  lemma EnqueueKeepsInv(s: Store, a: Action)
    requires Inv(s) && a.Enqueue? && Enabled(s, a)
    ensures Inv(Apply(s, a)) && Grows(s, Apply(s, a))
  {
    hide IsNextPosition;
    var t := Apply(s, a);
    assert Grows(s, t);
    forall k ensures RowOk(t, k) {
      assert RowOk(s, k);
      if k != a.key {
        UntouchedRow(s, t, k);
      }
    }
    forall r: nat ensures RunOk(t, r) {
      UntouchedRun(s, t, r);
    }
  }

  lemma NeverBlocks(s: Store, key: Key)
    requires Inv(s)
    ensures !WouldBlock(s, key)
  {
    assert RowOk(s, key);
  }

  /** Every action keeps the invariant and forgets nothing.  BLOCKED is never reached: its action is
      never enabled, because a READY row's prerequisite is INTEGRATED, not READY. */
  lemma StepKeepsInv(s: Store, a: Action)
    requires Inv(s) && Enabled(s, a)
    ensures Inv(Apply(s, a)) && Grows(s, Apply(s, a)) && !a.Block?
  {
    hide LogOk, OneIntegrating, StageOk, AddCommit, IsBase, IsMergeBase, ClassifyMerge, Moved, MergeStep;
    match a
    case Enqueue(_, _, _, _, _, _, _) => EnqueueKeepsInv(s, a);
    case Promote(rid) => PromoteKeepsInv(s, rid);
    case Claim(rid, key, holder) => ClaimKeepsInv(s, rid, key, holder);
    case Merge(rid, sha) => MergeKeepsInv(s, rid, sha);
    case Prepare(_) => DriveKeepsInv(s, a);
    case Test(_, _) => DriveKeepsInv(s, a);
    case Finish(_) => DriveKeepsInv(s, a);
    case Mark(_, _) => DriveKeepsInv(s, a);
    case Reset(rid) => ResetKeepsInv(s, rid);
    case Block(key) => NeverBlocks(s, key);
    case ReadBase(rid, _, _, _) =>
      InvOf(s, rid);
      StageMoves(s, a);
      QuietKeepsInv(s, Apply(s, a), Some(rid));
    case Decide(rid, _, _) => QuietKeepsInv(s, Apply(s, a), Some(rid));
    case Check(rid, _) => QuietKeepsInv(s, Apply(s, a), Some(rid));
    case _ => QuietKeepsInv(s, Apply(s, a), None);
  }

  lemma StageMoves(s: Store, a: Action)
    requires Inv(s) && a.ReadBase? && Enabled(s, a)
    ensures RunOk(Apply(s, a), a.rid)
  {
    hide LogOk, OneIntegrating, AddCommit, IsBase, IsMergeBase, ClassifyMerge;
    InvOf(s, a.rid);
  }

  lemma InitInv(s: Store)
    requires Init(s)
    ensures Inv(s)
  {
  }

  lemma {:induction false} InvAlongRun(s: Store, acts: seq<Action>)
    requires Inv(s) && Runs(s, acts)
    ensures Inv(After(s, acts)) && Grows(s, After(s, acts))
    decreases |acts|
  {
    hide Inv, Enabled, Apply, Grows;
    if acts == [] {
      GrowsSelf(s);
    } else {
      StepKeepsInv(s, acts[0]);
      InvAlongRun(Apply(s, acts[0]), acts[1..]);
      GrowsTrans(s, Apply(s, acts[0]), After(s, acts));
    }
  }

  lemma GrowsSelf(s: Store)
    ensures Grows(s, s)
  {
  }

  lemma GrowsTrans(s: Store, t: Store, u: Store)
    requires Grows(s, t) && Grows(t, u)
    ensures Grows(s, u)
  {
  }

  // ------------------------------------------------------------------ what every run guarantees

  /** Dependency closure: in every reachable store, a READY, INTEGRATING or INTEGRATED candidate has an
      INTEGRATED prerequisite, and no candidate is ever BLOCKED. */
  lemma DependencyClosure(s: Store, acts: seq<Action>, key: Key)
    requires Init(s) && Runs(s, acts) && key in After(s, acts).rows
    ensures var t := After(s, acts);
            var r := t.rows[key];
            && r.state != Blocked
            && (r.state in {Ready, Integrating, Integrated} && r.dependsOn.Some? ==> IsIntegrated(t, Prerequisite(key, r.dependsOn.value)))
  {
    hide Runs, After;
    InitInv(s);
    InvAlongRun(s, acts);
    assert RowOk(After(s, acts), key);
  }

  /** INTEGRATED is permanent: the row never changes again. */
  lemma IntegratedIsPermanent(s: Store, acts: seq<Action>, key: Key)
    requires Inv(s) && Runs(s, acts) && IsIntegrated(s, key)
    ensures key in After(s, acts).rows && After(s, acts).rows[key] == s.rows[key]
  {
    hide Runs, After, Inv;
    InvAlongRun(s, acts);
  }

  /** Uninterrupted finalisation: an INTEGRATED candidate's last five transitions are claim, prepare, merge
      with its head, passed evidence and close, at consecutive revisions and all by one holder. */
  lemma UninterruptedFinalisation(s: Store, acts: seq<Action>, key: Key)
    requires Init(s) && Runs(s, acts) && IsIntegrated(After(s, acts), key)
    ensures var r := After(s, acts).rows[key];
            && r.revision == |r.log| >= 5
            && Uninterrupted(r.log, r.revision - 1, r.head)
  {
    hide Runs, After, Inv, Uninterrupted;
    InitInv(s);
    InvAlongRun(s, acts);
    IntegratedLog(After(s, acts), key);
  }

  lemma IntegratedLog(s: Store, key: Key)
    requires Inv(s) && IsIntegrated(s, key)
    ensures var r := s.rows[key]; r.revision == |r.log| >= 5 && Uninterrupted(r.log, r.revision - 1, r.head)
  {
    assert RowOk(s, key);
  }

  /** How a write looks: one entry longer, and if it is signed, then by a holder of lease and lock. */
  ghost predicate FencedWrite(s: Store, t: Store, key: Key)
    requires key in s.rows && key in t.rows
  {
    t.rows[key] != s.rows[key] ==>
      && |t.rows[key].log| == |s.rows[key].log| + 1
      && var e := t.rows[key].log[|s.rows[key].log|];
         e.who.Some? ==> HoldsLease(s, e.who.value) && HoldsLock(s, key.queue, e.who.value)
  }

  lemma MovedIsFenced(s: Store, rid: nat, to: CandidateState, note: Note, head: Option<Sha>, next: Option<Stage>, key: Key)
    requires rid in s.runs && s.runs[rid].Driving? && key in s.rows
    ensures var t := Moved(s, rid, to, note, head, next); key in t.rows && FencedWrite(s, t, key)
  {
  }

  /** Whoever signs a transition holds the job lease and the queue's lock at that very step. */
  lemma SignedMeansFenced(s: Store, a: Action, key: Key)
    requires Enabled(s, a) && key in s.rows
    ensures key in Apply(s, a).rows && FencedWrite(s, Apply(s, a), key)
  {
    hide IsBase, IsNextPosition, AddCommit, IsMergeBase, ClassifyMerge, Moved, FencedWrite, HoldsLease, HoldsLock;
    if a.Prepare? || a.Test? || a.Finish? || a.Mark? || a.Merge? {
      DrivingIsFenced(s, a, key);
    } else {
      OtherIsFenced(s, a, key);
    }
  }

  lemma DrivingIsFenced(s: Store, a: Action, key: Key)
    requires Enabled(s, a) && key in s.rows && (a.Prepare? || a.Test? || a.Finish? || a.Mark? || a.Merge?)
    ensures key in Apply(s, a).rows && FencedWrite(s, Apply(s, a), key)
  {
    hide AddCommit, Moved;
    var st := s.runs[a.rid].stage;
    match a
    case Prepare(rid) => MovedIsFenced(s, rid, Integrating, PrepareNote, None, Some(Prepared(st.base)), key);
    case Test(rid, done) => MovedIsFenced(s, rid, Integrating, EvidenceNote(done), None, Some(Tested(st.base, st.head, done)), key);
    case Finish(rid) =>
      MovedIsFenced(s, rid, Integrated, CloseNote, if st.done then Some(st.head) else None, None, key);
      MovedIsFenced(s, rid, Failed, CloseNote, None, None, key);
    case Mark(rid, to) => MovedIsFenced(s, rid, to, OtherNote, None, None, key);
    case Merge(rid, sha) =>
      var run := s.runs[rid];
      if run.key in s.rows && st.base in s.commits && s.rows[run.key].sourceHead in s.commits {
        var source := s.rows[run.key].sourceHead;
        var head := MergedHead(s.commits, st.base, source, sha);
        var t := if head == st.base then s else s.(commits := AddCommit(s.commits, sha, {st.base, source}));
        MovedIsFenced(t, rid, Integrating, HeadNote(head), Some(head), Some(Merged(st.base, head)), key);
      }
  }

  lemma OtherIsFenced(s: Store, a: Action, key: Key)
    requires Enabled(s, a) && key in s.rows && !(a.Prepare? || a.Test? || a.Finish? || a.Mark? || a.Merge?)
    ensures key in Apply(s, a).rows && FencedWrite(s, Apply(s, a), key)
  {
    hide IsBase, IsNextPosition, AddCommit, IsMergeBase, ClassifyMerge;
  }

  /** A run whose candidate has moved on can neither write it nor anything else, and stays behind for ever. */
  lemma StaleRunIsHarmless(s: Store, a: Action, rid: nat)
    requires Inv(s) && Enabled(s, a) && rid in s.runs && s.runs[rid].Driving? && s.runs[rid].key in s.rows
    requires s.runs[rid].revision < s.rows[s.runs[rid].key].revision
    ensures RunOf(a) == Some(rid) ==> Apply(s, a).rows == s.rows
    ensures rid in Apply(s, a).runs ==>
              var run := Apply(s, a).runs[rid];
              && run.Driving? && run.key == s.runs[rid].key && run.revision == s.runs[rid].revision
              && run.key in Apply(s, a).rows && run.revision < Apply(s, a).rows[run.key].revision
  {
    hide Inv, IsBase, IsNextPosition, AddCommit, IsMergeBase, ClassifyMerge, LogOk;
    InvOf(s, rid);
    StepKeepsInv(s, a);
    if RunOf(a) != Some(rid) {
      OthersKeepRuns(s, a, rid);
    } else {
      StaleRunStops(s, a, rid);
    }
  }

  lemma OthersKeepRuns(s: Store, a: Action, rid: nat)
    requires Enabled(s, a) && RunOf(a) != Some(rid) && rid in s.runs
    ensures rid in Apply(s, a).runs && Apply(s, a).runs[rid] == s.runs[rid]
  {
    hide IsBase, IsNextPosition, AddCommit, IsMergeBase, ClassifyMerge, Advanced, Moved;
    if a.Prepare? || a.Test? || a.Finish? || a.Mark? || a.Merge? {
      var st := s.runs[a.rid].stage;
      match a
      case Prepare(r) => MovedKeepsOthers(s, r, Integrating, PrepareNote, None, Some(Prepared(st.base)), rid);
      case Test(r, done) => MovedKeepsOthers(s, r, Integrating, EvidenceNote(done), None, Some(Tested(st.base, st.head, done)), rid);
      case Finish(r) =>
        MovedKeepsOthers(s, r, Integrated, CloseNote, if st.done then Some(st.head) else None, None, rid);
        MovedKeepsOthers(s, r, Failed, CloseNote, None, None, rid);
      case Mark(r, to) => MovedKeepsOthers(s, r, to, OtherNote, None, None, rid);
      case Merge(r, sha) => MergeKeepsOthers(s, r, sha, rid);
    }
  }

  lemma MovedKeepsOthers(s: Store, r: nat, to: CandidateState, note: Note, head: Option<Sha>, next: Option<Stage>, rid: nat)
    requires r in s.runs && s.runs[r].Driving? && rid in s.runs && rid != r
    ensures var t := Moved(s, r, to, note, head, next); rid in t.runs && t.runs[rid] == s.runs[rid]
  {
    hide Advanced, CanMove;
  }

  lemma MergeKeepsOthers(s: Store, r: nat, sha: Sha, rid: nat)
    requires Enabled(s, Merge(r, sha)) && rid in s.runs && rid != r
    ensures rid in MergeStep(s, r, sha).runs && MergeStep(s, r, sha).runs[rid] == s.runs[rid]
  {
    hide Moved, AddCommit;
    var run := s.runs[r];
    var st := run.stage;
    if run.key in s.rows && st.base in s.commits && s.rows[run.key].sourceHead in s.commits {
      var source := s.rows[run.key].sourceHead;
      var head := MergedHead(s.commits, st.base, source, sha);
      var t := if head == st.base then s else s.(commits := AddCommit(s.commits, sha, {st.base, source}));
      MovedKeepsOthers(t, r, Integrating, HeadNote(head), Some(head), Some(Merged(st.base, head)), rid);
    }
  }

  lemma NotMoved(s: Store, rid: nat, to: CandidateState, note: Note, head: Option<Sha>, next: Option<Stage>)
    requires rid in s.runs && s.runs[rid].Driving? && !CanMove(s, rid)
    ensures Moved(s, rid, to, note, head, next) == s.(runs := s.runs - {rid})
  {
  }

  lemma MergeStops(s: Store, rid: nat, sha: Sha)
    requires Enabled(s, Merge(rid, sha)) && !CanMove(s, rid)
    ensures MergeStep(s, rid, sha).rows == s.rows && rid !in MergeStep(s, rid, sha).runs
  {
    hide AddCommit, MergedHead;
  }

  lemma StaleRunStops(s: Store, a: Action, rid: nat)
    requires Enabled(s, a) && RunOf(a) == Some(rid) && rid in s.runs && s.runs[rid].Driving? && s.runs[rid].key in s.rows
    requires s.runs[rid].revision < s.rows[s.runs[rid].key].revision
    ensures Apply(s, a).rows == s.rows
    ensures rid in Apply(s, a).runs ==>
              var run := Apply(s, a).runs[rid];
              run.Driving? && run.key == s.runs[rid].key && run.revision == s.runs[rid].revision
  {
    assert !CanMove(s, rid);
    hide IsBase, IsNextPosition, AddCommit, IsMergeBase, ClassifyMerge, Advanced, Moved, MergeStep, CanMove, HoldsLease, HoldsLock,
         DependencySatisfied;
    var st := s.runs[rid].stage;
    match a
    case Prepare(_) => NotMoved(s, rid, Integrating, PrepareNote, None, Some(Prepared(st.base)));
    case Test(_, done) => NotMoved(s, rid, Integrating, EvidenceNote(done), None, Some(Tested(st.base, st.head, done)));
    case Finish(_) =>
      NotMoved(s, rid, Integrated, CloseNote, Some(st.head), None);
      NotMoved(s, rid, Failed, CloseNote, None, None);
    case Mark(_, to) => NotMoved(s, rid, to, OtherNote, None, None);
    case Merge(_, sha) => MergeStops(s, rid, sha);
    case _ =>
  }

  /** A reset leaves every run of that candidate behind, so the interrupted run can never finish it. */
  lemma ResetStrandsRuns(s: Store, rid: nat, other: nat)
    requires Inv(s) && Enabled(s, Reset(rid)) && other in s.runs && s.runs[other].Driving?
    requires s.runs[other].key == s.runs[rid].key && Apply(s, Reset(rid)).rows != s.rows
    ensures other in Apply(s, Reset(rid)).runs && s.runs[other].revision < Apply(s, Reset(rid)).rows[s.runs[other].key].revision
  {
    InvOf(s, other);
  }
}
