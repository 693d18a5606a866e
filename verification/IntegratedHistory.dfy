/**
 How the integrated history of a queue grows over the commit graph (argent_core/merge_queue.py): what the
 head of a newly integrated candidate descends from, and when that covers everything integrated before.
 */
module IntegratedHistory {
  import opened Wrappers
  import opened CommitGraph
  import opened IntegrationOrder
  import opened MergeQueue

  predicate RowCommits(s: Store, key: Key) {
    key in s.rows ==>
      var r := s.rows[key];
      && IsAncestor(s.commits, r.claimedBase, r.sourceHead)
      && (r.head.Some? ==> r.head.value in s.commits) && (r.state == Integrated ==> r.head.Some?)
  }

  /** The base a run works on is still the one it would read now, unless it had only the branch tip to go by. */
  ghost predicate BaseIsFresh(s: Store, queue: nat, base: Sha) {
    || (exists k :: IsLastListed(s, queue, k) && s.rows[k].head == Some(base))
    || (forall k: Key :: IsIntegrated(s, k) ==> k.queue != queue)
  }

  /** What a run knows of its merge while it still stands where it left the row. */
  ghost predicate RunCommits(s: Store, rid: nat) {
    rid in s.runs && s.runs[rid].Driving? && s.runs[rid].key in s.rows
    && s.runs[rid].revision == s.rows[s.runs[rid].key].revision && !s.runs[rid].stage.Claimed? ==>
      var key := s.runs[rid].key;
      var r := s.rows[key];
      var base := s.runs[rid].stage.base;
      && IsAncestor(s.commits, r.claimedBase, base) && BaseIsFresh(s, key.queue, base)
      && (s.runs[rid].stage.Merged? || s.runs[rid].stage.Tested? ==>
            MergedOn(s, key.queue, base, r.sourceHead, s.runs[rid].stage.head))
  }

  /** `head` is a merge of `base` and `source`, made after everything that is integrated in the queue. */
  ghost predicate MergedOn(s: Store, queue: nat, base: Sha, source: Sha, head: Sha) {
    && head in s.commits && base in s.commits && source in s.commits
    && s.commits[head] == {head} + s.commits[base] + s.commits[source]
    && forall k :: IsIntegrated(s, k) && k.queue == queue && s.rows[k].head == Some(head) ==> head == base
  }

  ghost predicate History(s: Store) {
    && ValidGraph(s.commits)
    && (forall q :: q in s.tips ==> s.tips[q] in s.commits)
    && (forall key :: RowCommits(s, key)) && (forall rid :: RunCommits(s, rid))
    && (forall k :: k in s.finished <==> IsIntegrated(s, k))
    && (forall i, j :: 0 <= i < j < |s.finished| ==> s.finished[i] != s.finished[j])
  }

  // ------------------------------------------------------------------ preservation

  /** A step that neither integrates a row of the queue nor changes one that is integrated there. */
  ghost predicate SameIntegrated(s: Store, t: Store, queue: nat) {
    forall k: Key | k.queue == queue :: (IsIntegrated(s, k) <==> IsIntegrated(t, k)) && (IsIntegrated(s, k) ==> t.rows[k] == s.rows[k])
  }

  ghost predicate GraphGrows(s: Store, t: Store) {
    forall c :: c in s.commits ==> c in t.commits && t.commits[c] == s.commits[c]
  }

  lemma LastListedStays(s: Store, t: Store, queue: nat, key: Key)
    requires SameIntegrated(s, t, queue) && IsLastListed(s, queue, key)
    ensures IsLastListed(t, queue, key)
  {
    forall k | IsIntegrated(t, k) && k.queue == queue && k != key ensures ListedBefore(t, k, key) {
      assert IsIntegrated(s, k);
    }
  }

  lemma FreshStays(s: Store, t: Store, queue: nat, base: Sha)
    requires SameIntegrated(s, t, queue) && BaseIsFresh(s, queue, base)
    ensures BaseIsFresh(t, queue, base)
  {
    if k :| IsLastListed(s, queue, k) && s.rows[k].head == Some(base) {
      LastListedStays(s, t, queue, k);
    }
  }

  lemma RunCommitsStay(s: Store, t: Store, rid: nat)
    requires RunCommits(s, rid) && RunOk(s, rid) && Grows(s, t) && GraphGrows(s, t)
    requires rid in t.runs ==> rid in s.runs && t.runs[rid] == s.runs[rid]
    requires rid in s.runs && s.runs[rid].key in t.rows && s.rows[s.runs[rid].key] == t.rows[s.runs[rid].key] ==>
               SameIntegrated(s, t, s.runs[rid].key.queue)
    ensures RunCommits(t, rid)
  {
    hide StageOk, IsLastListed, BaseIsFresh;
    if rid in t.runs && t.runs[rid].Driving? && t.runs[rid].revision == t.rows[t.runs[rid].key].revision && !t.runs[rid].stage.Claimed? {
      var key := s.runs[rid].key;
      assert t.rows[key] == s.rows[key];
      FreshStays(s, t, key.queue, s.runs[rid].stage.base);
    }
  }

  /** Steps that integrate nothing. */
  lemma QuietKeepsHistory(s: Store, t: Store, rid: Option<nat>)
    requires Inv(s) && History(s) && Grows(s, t) && GraphGrows(s, t) && ValidGraph(t.commits)
    requires forall q :: q in t.tips ==> t.tips[q] in t.commits
    requires t.finished == s.finished && forall q: nat :: SameIntegrated(s, t, q)
    requires forall key :: RowCommits(t, key)
    requires forall r :: r in t.runs && rid != Some(r) ==> r in s.runs && t.runs[r] == s.runs[r]
    requires rid.Some? ==> RunCommits(t, rid.value)
    ensures History(t)
  {
    hide RunOk, RunCommits, Grows, RowCommits, ValidGraph, GraphGrows, OneIntegrating, RowOk;
    forall r: nat ensures RunCommits(t, r) {
      assert RunOk(s, r) && RunCommits(s, r);
      if rid != Some(r) {
        RunCommitsStay(s, t, r);
      }
    }
    forall k ensures IsIntegrated(s, k) <==> IsIntegrated(t, k) {
      assert SameIntegrated(s, t, k.queue);
    }
  }

  /** No row and no commit changed. */
  lemma RunOnlyKeepsHistory(s: Store, t: Store, rid: Option<nat>)
    requires Inv(s) && History(s) && t.rows == s.rows && t.commits == s.commits && t.finished == s.finished
    requires forall q :: q in t.tips ==> t.tips[q] in t.commits
    requires forall r :: r in t.runs && rid != Some(r) ==> r in s.runs && t.runs[r] == s.runs[r]
    requires rid.Some? ==> RunCommits(t, rid.value)
    ensures History(t)
  {
    hide RunOk, RunCommits, ValidGraph, OneIntegrating, RowOk;
    forall key ensures RowCommits(t, key) {
      assert RowCommits(s, key);
    }
    QuietKeepsHistory(s, t, rid);
  }

  /** One row that is not integrated, before or after, is written. */
  lemma WriteKeepsHistory(s: Store, t: Store, key: Key, rid: Option<nat>)
    requires Inv(s) && History(s) && Grows(s, t) && t.commits == s.commits && t.tips == s.tips && t.finished == s.finished
    requires key in s.rows && t.rows.Keys == s.rows.Keys && forall k :: k in s.rows && k != key ==> t.rows[k] == s.rows[k]
    requires s.rows[key].state != Integrated && t.rows[key].state != Integrated
    requires t.rows[key].sourceHead == s.rows[key].sourceHead && t.rows[key].claimedBase == s.rows[key].claimedBase
    requires t.rows[key].head == s.rows[key].head || (t.rows[key].head.Some? && t.rows[key].head.value in t.commits)
    requires forall r :: r in t.runs && rid != Some(r) ==> r in s.runs && t.runs[r] == s.runs[r]
    requires rid.Some? ==> RunCommits(t, rid.value)
    ensures History(t)
  {
    hide RunOk, RunCommits, ValidGraph, OneIntegrating, RowOk, Grows;
    forall k ensures RowCommits(t, k) {
      assert RowCommits(s, k);
    }
    QuietKeepsHistory(s, t, rid);
  }

  /** A fenced transition that does not close, made on a run whose merge facts carry over. */
  lemma MovedKeepsHistory(s: Store, rid: nat, to: CandidateState, note: Note, head: Option<Sha>, next: Option<Stage>)
    requires Inv(s) && History(s) && rid in s.runs && s.runs[rid].Driving? && to != Integrated
    requires Grows(s, Moved(s, rid, to, note, head, next))
    requires head.Some? ==> head.value in s.commits
    requires CanMove(s, rid) && next.Some? ==> RunCommits(Moved(s, rid, to, note, head, next), rid)
    ensures History(Moved(s, rid, to, note, head, next))
  {
    hide RunOk, RunCommits, History, Grows, OneIntegrating, RowOk;
    var t := Moved(s, rid, to, note, head, next);
    if CanMove(s, rid) {
      WriteKeepsHistory(s, t, s.runs[rid].key, if next.Some? then Some(rid) else None);
    } else {
      TipsOf(s);
      RunOnlyKeepsHistory(s, t, None);
    }
  }

  lemma TipsOf(s: Store)
    requires History(s)
    ensures forall q :: q in s.tips ==> s.tips[q] in s.commits
    ensures ValidGraph(s.commits)
  {
  }

  lemma RunFacts(s: Store, rid: nat)
    requires Inv(s) && History(s)
    ensures RunCommits(s, rid) && RunOk(s, rid)
  {
  }

  /** The next stage of a run that keeps its base, and its head once it has one. */
  lemma NextStageCommits(s: Store, rid: nat, to: CandidateState, note: Note, next: Stage)
    requires Inv(s) && History(s) && CanMove(s, rid) && to == Integrating && !s.runs[rid].stage.Claimed?
    requires (next.Prepared? && next.base == s.runs[rid].stage.base)
             || (next.Tested? && s.runs[rid].stage.Merged? && next.base == s.runs[rid].stage.base && next.head == s.runs[rid].stage.head)
    ensures RunCommits(Moved(s, rid, to, note, None, Some(next)), rid)
  {
    hide History, Inv, BaseIsFresh;
    RunFacts(s, rid);
    var t := Moved(s, rid, to, note, None, Some(next));
    FreshStays(s, t, s.runs[rid].key.queue, s.runs[rid].stage.base);
  }

  lemma ReadBaseKeepsHistory(s: Store, a: Action)
    requires Inv(s) && History(s) && a.ReadBase? && Enabled(s, a)
    ensures History(Apply(s, a))
  {
    hide OneIntegrating, RowOk, ClassifyMerge, RunOk, StageOk;
    var t := Apply(s, a);
    var key := s.runs[a.rid].key;
    var r := s.rows[key];
    assert RowCommits(s, key);
    ClassificationMeaning(s.commits, a.base, r.sourceHead, Some(r.claimedBase), a.mergeBase, a.conflicts);
    NotWithoutDependency(s, a);
    assert BaseIsFresh(s, key.queue, a.base) by {
      if k :| IsLastListed(s, key.queue, k) && s.rows[k].head == Some(a.base) {
      }
    }
    FreshStays(s, t, key.queue, a.base);
    RunOnlyKeepsHistory(s, t, Some(a.rid));
  }

  lemma NotWithoutDependency(s: Store, a: Action)
    requires a.ReadBase? && Enabled(s, a)
    ensures DependencySatisfied(s, s.runs[a.rid].key)
  {
    hide IsBase, IsMergeBase;
  }

  lemma MergeCommits(g: Graph, base: Sha, source: Sha, sha: Sha)
    requires ValidGraph(g) && base in g && source in g && sha !in g
    ensures var head := MergedHead(g, base, source, sha);
            var h := if head == base then g else AddCommit(g, sha, {base, source});
            && ValidGraph(h) && head in h && h[head] == {head} + h[base] + h[source]
            && (forall c :: c in g ==> c in h && h[c] == g[c]) && (head != base ==> head !in g)
  {
    hide ValidGraph, AddCommit;
    if IsAncestor(g, source, base) {
      NothingToMerge(g, base, source);
    } else {
      FreshMerge(g, base, source, sha);
      assert AddCommit(g, sha, {base, source})[base] == g[base] && AddCommit(g, sha, {base, source})[source] == g[source];
    }
  }

  lemma NothingToMerge(g: Graph, base: Sha, source: Sha)
    requires ValidGraph(g) && source in g && IsAncestor(g, source, base)
    ensures g[base] == {base} + g[base] + g[source]
  {
  }

  lemma FreshMerge(g: Graph, base: Sha, source: Sha, sha: Sha)
    requires ValidGraph(g) && base in g && source in g && sha !in g
    ensures var h := AddCommit(g, sha, {base, source});
            ValidGraph(h) && sha in h && h[sha] == {sha} + g[base] + g[source] && (forall c :: c in g ==> c in h && h[c] == g[c])
  {
    hide ValidGraph;
    AddCommitKeepsValid(g, sha, {base, source});
    assert AncestorsOf(g, {base, source}) == g[base] + g[source];
  }

  lemma MergeKeepsHistory(s: Store, rid: nat, sha: Sha)
    requires Inv(s) && History(s) && Enabled(s, Merge(rid, sha))
    ensures History(MergeStep(s, rid, sha))
  {
    hide OneIntegrating, RowOk, RunOk, StageOk, History, AddCommit, ValidGraph, Moved, BaseIsFresh, Grows, Inv;
    var run := s.runs[rid];
    var base := run.stage.base;
    TipsOf(s);
    if run.key !in s.rows || base !in s.commits || s.rows[run.key].sourceHead !in s.commits {
      RunOnlyKeepsHistory(s, MergeStep(s, rid, sha), None);
    } else {
      var source := s.rows[run.key].sourceHead;
      var head := MergedHead(s.commits, base, source, sha);
      var t := if head == base then s else s.(commits := AddCommit(s.commits, sha, {base, source}));
      MergeCommits(s.commits, base, source, sha);
      GraphOnlyKeepsHistory(s, t);
      GraphIsNoRow(s, t);
      MergeGrows(t, rid, head);
      if CanMove(t, rid) {
        HeadIsNew(s, t, rid, base, source, head);
      }
      MovedKeepsHistory(t, rid, Integrating, HeadNote(head), Some(head), Some(Merged(base, head)));
    }
  }

  lemma MergeGrows(t: Store, rid: nat, head: Sha)
    requires Inv(t) && rid in t.runs && t.runs[rid].Driving? && t.runs[rid].stage.Prepared?
    ensures Grows(t, Moved(t, rid, Integrating, HeadNote(head), Some(head), Some(Merged(t.runs[rid].stage.base, head))))
  {
    hide Inv, LogOk;
    InvOf(t, rid);
    MovedKeepsInv(t, rid, Integrating, HeadNote(head), Some(head), Some(Merged(t.runs[rid].stage.base, head)));
  }

  lemma GraphOnlyKeepsHistory(s: Store, t: Store)
    requires Inv(s) && History(s) && t.rows == s.rows && t.runs == s.runs && t.finished == s.finished && t.tips == s.tips
    requires ValidGraph(t.commits) && GraphGrows(s, t)
    ensures History(t)
  {
    hide RunOk, RunCommits, ValidGraph, OneIntegrating, RowOk, Grows;
    forall k ensures RowCommits(t, k) {
      assert RowCommits(s, k);
    }
    GrowsSelf(s);
    assert Grows(s, t) by { GrowsRows(s, t); }
    QuietKeepsHistory(s, t, None);
  }

  lemma GrowsRows(s: Store, t: Store)
    requires t.rows == s.rows
    ensures Grows(s, t)
  {
  }

  lemma HeadIsNew(s: Store, t: Store, rid: nat, base: Sha, source: Sha, head: Sha)
    requires Inv(s) && History(s) && History(t) && Inv(t) && t.rows == s.rows && t.runs == s.runs && CanMove(t, rid) && t.runs[rid].stage == Prepared(base)
    requires source == t.rows[t.runs[rid].key].sourceHead && base in t.commits && source in t.commits
    requires head in t.commits && t.commits[head] == {head} + t.commits[base] + t.commits[source]
    requires head != base ==> head !in s.commits
    ensures RunCommits(Moved(t, rid, Integrating, HeadNote(head), Some(head), Some(Merged(base, head))), rid)
  {
    hide BaseIsFresh, StageOk, LogOk, ValidGraph;
    RunFacts(t, rid);
    var u := Moved(t, rid, Integrating, HeadNote(head), Some(head), Some(Merged(base, head)));
    var queue := t.runs[rid].key.queue;
    FreshStays(t, u, queue, base);
    forall k | IsIntegrated(u, k) && k.queue == queue && u.rows[k].head == Some(head) ensures head == base {
      assert RowCommits(s, k) && s.rows[k] == u.rows[k];
    }
  }

  // ------------------------------------------------------------------ the closing step

  /** Closing a candidate: its row joins the integrated ones, and every other run in the queue is out of date. */
  lemma CloseKeepsHistory(s: Store, rid: nat)
    requires Inv(s) && History(s) && Enabled(s, Finish(rid)) && s.runs[rid].stage.done
    ensures History(Apply(s, Finish(rid)))
  {
    hide LogOk, ValidGraph;
    var t := Apply(s, Finish(rid));
    var key := s.runs[rid].key;
    StepKeepsInv(s, Finish(rid));
    RunFacts(s, rid);
    if CanMove(s, rid) {
      forall k ensures RowCommits(t, k) {
        assert RowCommits(s, k);
      }
      forall r: nat ensures RunCommits(t, r) {
        OtherRunsCommits(s, rid, r);
      }
      forall k ensures k in t.finished <==> IsIntegrated(t, k) {
        assert k in s.finished <==> IsIntegrated(s, k);
      }
      assert key !in s.finished;
      assert t.commits == s.commits && t.tips == s.tips;
    } else {
      RunOnlyKeepsHistory(s, t, None);
    }
  }

  lemma OtherRunsCommits(s: Store, rid: nat, r: nat)
    requires Inv(s) && History(s) && Enabled(s, Finish(rid)) && s.runs[rid].stage.done && CanMove(s, rid)
    ensures RunCommits(Apply(s, Finish(rid)), r)
  {
    hide ValidGraph, LogOk, IsLastListed, BaseIsFresh;
    var t := Apply(s, Finish(rid));
    StepKeepsInv(s, Finish(rid));
    RunFacts(s, r);
    if r in t.runs && t.runs[r].Driving? && t.runs[r].key != s.runs[rid].key && t.runs[r].revision == t.rows[t.runs[r].key].revision {
      assert t.runs[r].key.queue != s.runs[rid].key.queue;
      RunCommitsStay(s, t, r);
    }
  }

  lemma StepKeepsHistory(s: Store, a: Action)
    requires Inv(s) && History(s) && Enabled(s, a)
    ensures History(Apply(s, a))
  {
    hide LogOk, ValidGraph, Moved, MergeStep, RowOk, RunOk, OneIntegrating, ClassifyMerge, IsBase, IsMergeBase, AddCommit, Inv, History, Grows, RunCommits;
    var t := Apply(s, a);
    StepKeepsInv(s, a);
    TipsOf(s);
    match a
    case Enqueue(_, _, _, _, _, _, _) => EnqueueKeepsHistory(s, a);
    case Promote(rid) => ReleaseKeepsHistory(s, a);
    case Reset(rid) => ReleaseKeepsHistory(s, a);
    case Claim(rid, key, holder) => ClaimKeepsHistory(s, rid, key, holder);
    case ReadBase(_, _, _, _) => ReadBaseKeepsHistory(s, a);
    case Merge(rid, sha) => MergeKeepsHistory(s, rid, sha);
    case Prepare(_) => DriveKeepsHistory(s, a);
    case Test(_, _) => DriveKeepsHistory(s, a);
    case Finish(rid) => if s.runs[rid].stage.done { CloseKeepsHistory(s, rid); } else { DriveKeepsHistory(s, a); }
    case Mark(_, _) => DriveKeepsHistory(s, a);
    case Push(sha, parents) =>
      AddCommitKeepsValid(s.commits, sha, parents);
      PushGrows(s, sha, parents);
      GraphOnlyKeepsHistory(s, t);
    case Block(key) => NeverBlocks(s, key);
    case Decide(rid, _, _) =>
      NotDriving(t, rid);
      RunOnlyKeepsHistory(s, t, Some(rid));
    case Check(rid, _) =>
      NotDriving(t, rid);
      RunOnlyKeepsHistory(s, t, Some(rid));
    case _ => RunOnlyKeepsHistory(s, t, None);
  }

  lemma PushGrows(s: Store, sha: Sha, parents: set<Sha>)
    requires sha !in s.commits && parents <= s.commits.Keys
    ensures GraphGrows(s, s.(commits := AddCommit(s.commits, sha, parents)))
  {
  }

  lemma NotDriving(t: Store, rid: nat)
    requires rid in t.runs && !t.runs[rid].Driving?
    ensures RunCommits(t, rid)
  {
  }

  lemma EnqueueKeepsHistory(s: Store, a: Action)
    requires Inv(s) && History(s) && a.Enqueue? && Enabled(s, a)
    ensures History(Apply(s, a))
  {
    hide LogOk, ValidGraph, OneIntegrating, RunOk, RowOk, RunCommits;
    var t := Apply(s, a);
    EnqueueKeepsInv(s, a);
    TipsOf(s);
    forall k ensures RowCommits(t, k) {
      assert RowCommits(s, k);
    }
    QuietKeepsHistory(s, t, None);
  }

  lemma ReleaseKeepsHistory(s: Store, a: Action)
    requires Inv(s) && History(s) && (a.Promote? || a.Reset?) && Enabled(s, a)
    ensures History(Apply(s, a))
  {
    hide LogOk, ValidGraph, OneIntegrating, RowOk, History, RunCommits, StageOk, Grows;
    var t := Apply(s, a);
    StepKeepsInv(s, a);
    RunFacts(s, a.rid);
    TipsOf(s);
    if t.rows != s.rows {
      WriteKeepsHistory(s, t, s.runs[a.rid].key, None);
    } else {
      RunOnlyKeepsHistory(s, t, None);
    }
  }

  lemma ClaimKeepsHistory(s: Store, rid: nat, key: Key, holder: Holder)
    requires Inv(s) && History(s) && Enabled(s, Claim(rid, key, holder))
    ensures History(Apply(s, Claim(rid, key, holder)))
  {
    hide LogOk, ValidGraph, OneIntegrating, RowOk, History, StageOk, Grows, Inv;
    ClaimKeepsInv(s, rid, key, holder);
    WriteKeepsHistory(s, Apply(s, Claim(rid, key, holder)), key, Some(rid));
  }

  lemma DriveKeepsHistory(s: Store, a: Action)
    requires Inv(s) && History(s) && Enabled(s, a)
    requires a.Prepare? || a.Test? || a.Mark? || (a.Finish? && !s.runs[a.rid].stage.done)
    ensures History(Apply(s, a))
  {
    hide LogOk, ValidGraph, OneIntegrating, RowOk, History, StageOk, Grows, Inv, RunCommits, Moved;
    DriveKeepsInv(s, a);
    var st := s.runs[a.rid].stage;
    match a
    case Prepare(rid) =>
      if CanMove(s, rid) { NextStageCommits(s, rid, Integrating, PrepareNote, Prepared(st.base)); }
      MovedKeepsHistory(s, rid, Integrating, PrepareNote, None, Some(Prepared(st.base)));
    case Test(rid, done) =>
      if CanMove(s, rid) { NextStageCommits(s, rid, Integrating, EvidenceNote(done), Tested(st.base, st.head, done)); }
      MovedKeepsHistory(s, rid, Integrating, EvidenceNote(done), None, Some(Tested(st.base, st.head, done)));
    case Finish(rid) => MovedKeepsHistory(s, rid, Failed, CloseNote, None, None);
    case Mark(rid, to) => MovedKeepsHistory(s, rid, to, OtherNote, None, None);
  }

  // ------------------------------------------------------------------ what the history looks like

  lemma InitHistory(s: Store)
    requires Init(s)
    ensures Inv(s) && History(s)
  {
  }

  /** Every integrated head so far, in the order of time, descends from the ones before it. */
  ghost predicate Chain(s: Store, queue: nat) {
    forall i, j | 0 <= i < j < |s.finished| && s.finished[i].queue == s.finished[j].queue == queue :: Descends(s, s.finished[i], s.finished[j])
  }

  predicate Descends(s: Store, a: Key, b: Key) {
    && a in s.rows && b in s.rows && s.rows[a].head.Some? && s.rows[b].head.Some?
    && IsAncestor(s.commits, s.rows[a].head.value, s.rows[b].head.value)
  }

  /** The queue's candidates became INTEGRATED in the order in which they are listed. */
  ghost predicate InListOrder(s: Store, queue: nat) {
    forall i, j | 0 <= i < j < |s.finished| && s.finished[i].queue == s.finished[j].queue == queue ::
      s.finished[i] in s.rows && s.finished[j] in s.rows && ListedBefore(s, s.finished[i], s.finished[j])
  }

  /** What closing a candidate adds to the history, exactly: the new head descends from its own source and from
      the base it was merged on, its claimed base is an ancestor of both, and it descends from an earlier
      integrated head of its queue if and only if the base or the source already did. */
  lemma NewHead(s: Store, rid: nat)
    requires Inv(s) && History(s) && Enabled(s, Finish(rid)) && s.runs[rid].stage.done && CanMove(s, rid)
    ensures var t := Apply(s, Finish(rid));
            var key := s.runs[rid].key;
            var base := s.runs[rid].stage.base;
            var r := t.rows[key];
            && IsIntegrated(t, key) && r.head.Some? && t.finished == s.finished + [key] && t.commits == s.commits
            && IsAncestor(t.commits, base, r.head.value) && IsAncestor(t.commits, r.sourceHead, r.head.value)
            && IsAncestor(t.commits, r.claimedBase, base) && IsAncestor(t.commits, r.claimedBase, r.sourceHead)
            && BaseIsFresh(s, key.queue, base)
            && forall k | IsIntegrated(s, k) && k.queue == key.queue ::
                 s.rows[k].head.Some? && t.rows[k] == s.rows[k]
                 && (Descends(t, k, key) <==> IsAncestor(s.commits, s.rows[k].head.value, base)
                                              || IsAncestor(s.commits, s.rows[k].head.value, r.sourceHead))
  {
    hide LogOk, BaseIsFresh, OneIntegrating;
    RunFacts(s, rid);
    var key := s.runs[rid].key;
    assert RowCommits(s, key);
    forall k | IsIntegrated(s, k) && k.queue == key.queue ensures s.rows[k].head.Some? && s.rows[k].head.value in s.commits {
      assert RowCommits(s, k);
    }
  }

  /** Closing in list order extends the chain. */
  lemma CloseExtendsChain(s: Store, rid: nat)
    requires Inv(s) && History(s) && Enabled(s, Finish(rid)) && s.runs[rid].stage.done && CanMove(s, rid)
    requires var q := s.runs[rid].key.queue; Chain(s, q) && InListOrder(s, q)
    ensures Chain(Apply(s, Finish(rid)), s.runs[rid].key.queue)
  {
    hide LogOk, OneIntegrating, RunCommits, RunOk, RowOk;
    var t := Apply(s, Finish(rid));
    var key := s.runs[rid].key;
    var base := s.runs[rid].stage.base;
    NewHead(s, rid);
    forall i, j | 0 <= i < j < |t.finished| && t.finished[i].queue == t.finished[j].queue == key.queue
      ensures Descends(t, t.finished[i], t.finished[j])
    {
      assert s.finished[i] == t.finished[i] && IsIntegrated(s, s.finished[i]);
      if j < |s.finished| {
        assert Descends(s, s.finished[i], s.finished[j]) && IsIntegrated(s, s.finished[j]);
      } else {
        LastCoversAll(s, key.queue, base, s.finished[i]);
      }
    }
  }

  /** In list order, the base is the head of the last candidate in time as well, and so covers them all. */
  lemma LastCoversAll(s: Store, queue: nat, base: Sha, k: Key)
    requires Inv(s) && History(s) && BaseIsFresh(s, queue, base) && Chain(s, queue) && InListOrder(s, queue)
    requires IsIntegrated(s, k) && k.queue == queue
    ensures s.rows[k].head.Some? && IsAncestor(s.commits, s.rows[k].head.value, base)
  {
    hide LogOk, OneIntegrating, RunCommits, RunOk, RowOk;
    assert RowCommits(s, k);
    var l :| IsLastListed(s, queue, l) && s.rows[l].head == Some(base);
    var i :| 0 <= i < |s.finished| && s.finished[i] == k;
    var j :| 0 <= j < |s.finished| && s.finished[j] == l;
    assert k != l ==> ListedBefore(s, k, l);
    if i < j {
      assert Descends(s, k, l);
    }
  }

  predicate Closes(s: Store, a: Action) {
    a.Finish? && a.rid in s.runs && s.runs[a.rid].Driving? && s.runs[a.rid].stage.Tested? && s.runs[a.rid].stage.done && CanMove(s, a.rid)
  }

  lemma StepCommits(s: Store, a: Action)
    requires Inv(s) && Enabled(s, a)
    ensures GraphGrows(s, Apply(s, a)) && (!Closes(s, a) ==> Apply(s, a).finished == s.finished)
  {
    hide IsBase, IsNextPosition, IsMergeBase, ClassifyMerge, Inv, Advanced, Moved, CanMove, AddCommit, MergeStep,
         DependencySatisfied, HoldsLease, HoldsLock, WouldBlock;
    match a
    case Prepare(rid) => MovedCommits(s, rid, Integrating, PrepareNote, None, Some(Prepared(s.runs[rid].stage.base)));
    case Test(rid, done) =>
      var st := s.runs[rid].stage;
      MovedCommits(s, rid, Integrating, EvidenceNote(done), None, Some(Tested(st.base, st.head, done)));
    case Finish(rid) =>
      MovedCommits(s, rid, Integrated, CloseNote, Some(s.runs[rid].stage.head), None);
      MovedCommits(s, rid, Failed, CloseNote, None, None);
    case Mark(rid, to) => MovedCommits(s, rid, to, OtherNote, None, None);
    case Merge(rid, sha) => MergeGrowsGraph(s, rid, sha);
    case Push(sha, parents) => PushGrows(s, sha, parents);
    case _ =>
  }

  lemma MovedCommits(s: Store, rid: nat, to: CandidateState, note: Note, head: Option<Sha>, next: Option<Stage>)
    requires rid in s.runs && s.runs[rid].Driving?
    ensures var t := Moved(s, rid, to, note, head, next);
            t.commits == s.commits && (to != Integrated || !CanMove(s, rid) ==> t.finished == s.finished)
  {
  }

  lemma MergeGrowsGraph(s: Store, rid: nat, sha: Sha)
    requires Enabled(s, Merge(rid, sha))
    ensures GraphGrows(s, MergeStep(s, rid, sha)) && MergeStep(s, rid, sha).finished == s.finished
  {
    hide Moved;
    var run := s.runs[rid];
    var base := run.stage.base;
    if run.key in s.rows && base in s.commits && s.rows[run.key].sourceHead in s.commits {
      var source := s.rows[run.key].sourceHead;
      var head := MergedHead(s.commits, base, source, sha);
      var t := if head == base then s else s.(commits := AddCommit(s.commits, sha, {base, source}));
      MovedCommits(t, rid, Integrating, HeadNote(head), Some(head), Some(Merged(base, head)));
    }
  }

  lemma StepKeepsChain(s: Store, a: Action, queue: nat)
    requires Inv(s) && History(s) && Enabled(s, a) && (InListOrder(s, queue) ==> Chain(s, queue))
    ensures InListOrder(Apply(s, a), queue) ==> Chain(Apply(s, a), queue)
  {
    hide Apply, Enabled, Inv, History, CanMove, Chain, InListOrder, IsBase;
    var t := Apply(s, a);
    StepKeepsInv(s, a);
    StepKeepsHistory(s, a);
    StepCommits(s, a);
    if Closes(s, a) {
      NewHead(s, a.rid);
    }
    OrderInherited(s, t, queue);
    if InListOrder(t, queue) {
      if Closes(s, a) && s.runs[a.rid].key.queue == queue {
        CloseExtendsChain(s, a.rid);
      } else {
        ChainStays(s, t, queue);
      }
    }
  }

  lemma OrderInherited(s: Store, t: Store, queue: nat)
    requires History(s) && Grows(s, t) && s.finished <= t.finished
    ensures InListOrder(t, queue) ==> InListOrder(s, queue)
  {
    hide ValidGraph, RowCommits, RunCommits;
    if InListOrder(t, queue) {
      forall i, j | 0 <= i < j < |s.finished| && s.finished[i].queue == s.finished[j].queue == queue
        ensures s.finished[i] in s.rows && s.finished[j] in s.rows && ListedBefore(s, s.finished[i], s.finished[j])
      {
        assert t.finished[i] == s.finished[i] && t.finished[j] == s.finished[j];
        assert IsIntegrated(s, s.finished[i]) && IsIntegrated(s, s.finished[j]);
      }
    }
  }

  lemma ChainStays(s: Store, t: Store, queue: nat)
    requires History(s) && Grows(s, t) && GraphGrows(s, t) && Chain(s, queue) && s.finished <= t.finished
    requires forall i :: |s.finished| <= i < |t.finished| ==> t.finished[i].queue != queue
    ensures Chain(t, queue)
  {
    hide ValidGraph, RowCommits, RunCommits;
    forall i, j | 0 <= i < j < |t.finished| && t.finished[i].queue == t.finished[j].queue == queue
      ensures Descends(t, t.finished[i], t.finished[j])
    {
      assert t.finished[i] == s.finished[i] && t.finished[j] == s.finished[j];
      assert Descends(s, s.finished[i], s.finished[j]);
      assert IsIntegrated(s, s.finished[i]) && IsIntegrated(s, s.finished[j]);
    }
  }

  lemma {:induction false} AllAlongRun(s: Store, acts: seq<Action>, queue: nat)
    requires Inv(s) && History(s) && Runs(s, acts) && (InListOrder(s, queue) ==> Chain(s, queue))
    ensures var t := After(s, acts); Inv(t) && History(t) && (InListOrder(t, queue) ==> Chain(t, queue))
    decreases |acts|
  {
    hide Inv, History, Enabled, Apply, InListOrder, Chain;
    if acts != [] {
      StepKeepsInv(s, acts[0]);
      StepKeepsHistory(s, acts[0]);
      StepKeepsChain(s, acts[0], queue);
      AllAlongRun(Apply(s, acts[0]), acts[1..], queue);
    }
  }

  /** Integrated history grows: in every run in which the candidates of a queue became INTEGRATED in list order,
      each integrated head descends from every head integrated before it in that queue. */
  lemma IntegratedHistoryGrows(s: Store, acts: seq<Action>, queue: nat)
    requires Init(s) && Runs(s, acts) && InListOrder(After(s, acts), queue)
    ensures Chain(After(s, acts), queue)
    ensures forall k :: k in After(s, acts).finished <==> IsIntegrated(After(s, acts), k)
  {
    hide Inv, Runs, After, InListOrder, Chain, RowCommits, RunCommits;
    InitHistory(s);
    assert Chain(s, queue) by { NothingFinished(s, queue); }
    AllAlongRun(s, acts, queue);
  }

  lemma NothingFinished(s: Store, queue: nat)
    requires s.finished == []
    ensures Chain(s, queue)
  {
  }

  /** Exactly when the next base covers everything integrated so far: the last candidate in list order and the
      last one in time have the same head. */
  lemma BaseCoversHistoryIff(s: Store, queue: nat, listed: Key, latest: Key)
    requires History(s) && Chain(s, queue) && IsLastListed(s, queue, listed)
    requires IsIntegrated(s, latest) && latest.queue == queue
    requires forall i, j :: 0 <= i < j < |s.finished| && s.finished[i] == latest ==> s.finished[j].queue != queue
    ensures s.rows[listed].head.Some? && s.rows[latest].head.Some?
    ensures (forall k | IsIntegrated(s, k) && k.queue == queue :: Descends(s, k, listed)) <==> s.rows[listed].head == s.rows[latest].head
  {
    hide RunCommits;
    assert RowCommits(s, listed) && RowCommits(s, latest);
    var n :| 0 <= n < |s.finished| && s.finished[n] == latest;
    forall k | IsIntegrated(s, k) && k.queue == queue ensures Descends(s, k, latest) {
      assert RowCommits(s, k);
      var i :| 0 <= i < |s.finished| && s.finished[i] == k;
      if i < n {
        assert Descends(s, s.finished[i], s.finished[n]);
      }
    }
    assert Descends(s, listed, latest);
    if forall k | IsIntegrated(s, k) && k.queue == queue :: Descends(s, k, listed) {
      assert Descends(s, latest, listed);
    }
  }

  // ------------------------------------------------------------------ carrying one candidate through

  lemma {:induction false} RunsSnoc(s: Store, acts: seq<Action>, a: Action)
    requires Runs(s, acts) && Enabled(After(s, acts), a)
    ensures Runs(s, acts + [a]) && After(s, acts + [a]) == Apply(After(s, acts), a)
    decreases |acts|
  {
    hide Enabled, Apply;
    if acts == [] {
      assert acts + [a] == [a] && [a][1..] == [];
      assert Runs(Apply(s, a), []) && After(Apply(s, a), []) == Apply(s, a);
    } else {
      assert (acts + [a])[0] == acts[0] && (acts + [a])[1..] == acts[1..] + [a];
      RunsSnoc(Apply(s, acts[0]), acts[1..], a);
    }
  }

  /** The row and commits a completed integration leaves behind. */
  ghost predicate IntegratedAs(s: Store, t: Store, key: Key, base: Sha, sha: Sha)
    requires key in s.rows && base in s.commits && s.rows[key].sourceHead in s.commits
  {
    && t.rows.Keys == s.rows.Keys && (forall k :: k in s.rows && k != key ==> t.rows[k] == s.rows[k])
    && t.rows[key].state == Integrated && t.rows[key].head == Some(sha)
    && t.rows[key].position == s.rows[key].position && t.rows[key].sourceHead == s.rows[key].sourceHead
    && t.commits == AddCommit(s.commits, sha, {base, s.rows[key].sourceHead})
    && t.runs == s.runs && t.leases == s.leases && t.locks == s.locks && t.tips == s.tips
    && t.finished == s.finished + [key]
  }

  ghost predicate ThreeSteps(s: Store, a: Action, b: Action, c: Action, t: Store) {
    Enabled(s, a) && Enabled(Apply(s, a), b) && Enabled(Apply(Apply(s, a), b), c) && t == Apply(Apply(Apply(s, a), b), c)
  }

  /** The first half: claim, read the base, prepare the worktree. */
  lemma FirstHalf(s: Store, rid: nat, key: Key, holder: Holder, base: Sha, mergeBase: Option<Sha>, conflicts: Option<bool>)
    returns (t: Store)
    requires Inv(s) && Enabled(s, Claim(rid, key, holder)) && DependencySatisfied(s, key)
    requires IsBase(s, key.queue, base) && base in s.commits && IsMergeBase(s.commits, mergeBase, base, s.rows[key].sourceHead)
    requires var r := s.rows[key];
             ClassifyMerge(s.commits, Some(base), Some(r.sourceHead), Some(r.claimedBase), true, mergeBase, conflicts) in {CleanApply, DivergedClean}
    ensures && ThreeSteps(s, Claim(rid, key, holder), ReadBase(rid, base, mergeBase, conflicts), Prepare(rid), t)
            && key in t.rows && rid in t.runs
            && t == s.(rows := s.rows[key := t.rows[key]], runs := s.runs[rid := t.runs[rid]])
            && t.runs[rid] == Driving(key, holder, t.rows[key].revision, Prepared(base)) && t.rows[key].state == Integrating
            && t.rows[key].position == s.rows[key].position && t.rows[key].sourceHead == s.rows[key].sourceHead
  {
    hide IsMergeBase, ClassifyMerge, Inv, IsBase, DependencySatisfied, IsIntegrated, Apply, Enabled;
    ClaimEffect(s, rid, key, holder);
    var s1 := Apply(s, Claim(rid, key, holder));
    BaseAfterClaim(s, s1, key, base);
    DependencyAfterClaim(s, s1, key);
    ReadBaseEffect(s1, rid, base, mergeBase, conflicts);
    var s2 := Apply(s1, ReadBase(rid, base, mergeBase, conflicts));
    PrepareEffect(s2, rid);
    t := Apply(s2, Prepare(rid));
  }

  lemma ClaimEffect(s: Store, rid: nat, key: Key, holder: Holder)
    requires Enabled(s, Claim(rid, key, holder))
    ensures key in s.rows && s.rows[key].state == Ready && HoldsLease(s, holder) && HoldsLock(s, key.queue, holder)
    ensures var t := Apply(s, Claim(rid, key, holder));
            && key in t.rows && t == s.(rows := s.rows[key := t.rows[key]], runs := s.runs[rid := Driving(key, holder, t.rows[key].revision, Claimed)])
            && t.rows[key].(state := Ready, revision := s.rows[key].revision, holder := s.rows[key].holder, log := s.rows[key].log) == s.rows[key]
            && t.rows[key].state == Integrating
  {
  }

  lemma ReadBaseEffect(s: Store, rid: nat, base: Sha, mergeBase: Option<Sha>, conflicts: Option<bool>)
    requires rid in s.runs && s.runs[rid].Driving? && s.runs[rid].stage == Claimed && s.runs[rid].key in s.rows
    requires IsBase(s, s.runs[rid].key.queue, base) && base in s.commits
    requires var r := s.rows[s.runs[rid].key];
             && IsMergeBase(s.commits, mergeBase, base, r.sourceHead) && DependencySatisfied(s, s.runs[rid].key)
             && ClassifyMerge(s.commits, Some(base), Some(r.sourceHead), Some(r.claimedBase), true, mergeBase, conflicts) in {CleanApply, DivergedClean}
    ensures var a := ReadBase(rid, base, mergeBase, conflicts);
            Enabled(s, a) && Apply(s, a) == s.(runs := s.runs[rid := s.runs[rid].(stage := Based(base))])
  {
    hide IsMergeBase, ClassifyMerge, IsBase, DependencySatisfied;
  }

  lemma PrepareEffect(s: Store, rid: nat)
    requires CanMove(s, rid) && s.runs[rid].stage.Based?
    ensures Enabled(s, Prepare(rid))
    ensures var t := Apply(s, Prepare(rid));
            var key := s.runs[rid].key;
            && key in t.rows && t == s.(rows := s.rows[key := t.rows[key]], runs := s.runs[rid := t.runs[rid]])
            && t.runs[rid] == Driving(key, s.runs[rid].holder, t.rows[key].revision, Prepared(s.runs[rid].stage.base))
            && t.rows[key].state == Integrating && t.rows[key].position == s.rows[key].position && t.rows[key].sourceHead == s.rows[key].sourceHead
  {
  }

  lemma BaseAfterClaim(s: Store, t: Store, key: Key, base: Sha)
    requires key in s.rows && s.rows[key].state != Integrated && t.rows.Keys == s.rows.Keys && t.tips == s.tips
    requires t.rows[key].state != Integrated && forall k :: k in s.rows && k != key ==> t.rows[k] == s.rows[k]
    requires IsBase(s, key.queue, base)
    ensures IsBase(t, key.queue, base)
  {
    forall k ensures IsIntegrated(s, k) <==> IsIntegrated(t, k) {
    }
    if k :| IsLastListed(s, key.queue, k) && s.rows[k].head == Some(base) {
      LastListedStays(s, t, key.queue, k);
    }
  }

  lemma DependencyAfterClaim(s: Store, t: Store, key: Key)
    requires key in s.rows && s.rows[key].state != Integrated && t.rows.Keys == s.rows.Keys
    requires forall k :: k in s.rows && k != key ==> t.rows[k] == s.rows[k]
    requires t.rows[key].dependsOn == s.rows[key].dependsOn && DependencySatisfied(s, key)
    ensures DependencySatisfied(t, key)
  {
  }

  /** The second half: merge, run the tests, close. */
  lemma SecondHalf(s: Store, rid: nat, sha: Sha) returns (t: Store)
    requires CanMove(s, rid) && s.runs[rid].stage.Prepared? && sha !in s.commits
    requires s.runs[rid].stage.base in s.commits && s.rows[s.runs[rid].key].sourceHead in s.commits
    requires !IsAncestor(s.commits, s.rows[s.runs[rid].key].sourceHead, s.runs[rid].stage.base)
    ensures && ThreeSteps(s, Merge(rid, sha), Test(rid, true), Finish(rid), t)
            && s.runs[rid].key in t.rows
            && t == s.(rows := s.rows[s.runs[rid].key := t.rows[s.runs[rid].key]], runs := s.runs - {rid}, finished := s.finished + [s.runs[rid].key],
                       commits := AddCommit(s.commits, sha, {s.runs[rid].stage.base, s.rows[s.runs[rid].key].sourceHead}))
            && t.rows[s.runs[rid].key].state == Integrated && t.rows[s.runs[rid].key].head == Some(sha)
            && t.rows[s.runs[rid].key].position == s.rows[s.runs[rid].key].position
            && t.rows[s.runs[rid].key].sourceHead == s.rows[s.runs[rid].key].sourceHead
  {
    hide AddCommit;
    var s1 := Apply(s, Merge(rid, sha));
    var s2 := Apply(s1, Test(rid, true));
    t := Apply(s2, Finish(rid));
    assert s.runs[rid := s1.runs[rid]][rid := s2.runs[rid]] - {rid} == s.runs - {rid};
  }

  /** Progress: a READY candidate whose holder keeps lease and lock, whose merge is clean and whose tests pass is
      carried to INTEGRATED. */
  lemma Carry(s: Store, rid: nat, key: Key, holder: Holder, base: Sha, mergeBase: Option<Sha>, conflicts: Option<bool>, sha: Sha)
    returns (acts: seq<Action>)
    requires Inv(s) && History(s) && Enabled(s, Claim(rid, key, holder))
    requires IsBase(s, key.queue, base) && base in s.commits && IsMergeBase(s.commits, mergeBase, base, s.rows[key].sourceHead)
    requires var r := s.rows[key];
             ClassifyMerge(s.commits, Some(base), Some(r.sourceHead), Some(r.claimedBase), true, mergeBase, conflicts) in {CleanApply, DivergedClean}
    requires sha !in s.commits && s.rows[key].sourceHead in s.commits && !IsAncestor(s.commits, s.rows[key].sourceHead, base)
    ensures Runs(s, acts) && IntegratedAs(s, After(s, acts), key, base, sha)
  {
    hide IsMergeBase, ClassifyMerge, Apply, Enabled, AddCommit, IsBase, History;
    ClaimedHere(s, rid, key, holder);
    var t := FirstHalf(s, rid, key, holder, base, mergeBase, conflicts);
    var u := SecondHalf(t, rid, sha);
    acts := [];
    RunsSnoc(s, acts, Claim(rid, key, holder));
    acts := acts + [Claim(rid, key, holder)];
    RunsSnoc(s, acts, ReadBase(rid, base, mergeBase, conflicts));
    acts := acts + [ReadBase(rid, base, mergeBase, conflicts)];
    RunsSnoc(s, acts, Prepare(rid));
    acts := acts + [Prepare(rid)];
    RunsSnoc(s, acts, Merge(rid, sha));
    acts := acts + [Merge(rid, sha)];
    RunsSnoc(s, acts, Test(rid, true));
    acts := acts + [Test(rid, true)];
    RunsSnoc(s, acts, Finish(rid));
    acts := acts + [Finish(rid)];
    assert s.runs[rid := t.runs[rid]] - {rid} == s.runs;
  }

  lemma ClaimedHere(s: Store, rid: nat, key: Key, holder: Holder)
    requires Inv(s) && Enabled(s, Claim(rid, key, holder))
    ensures rid !in s.runs && key in s.rows && DependencySatisfied(s, key) && HoldsLease(s, holder) && HoldsLock(s, key.queue, holder)
  {
    assert RowOk(s, key);
  }
}
