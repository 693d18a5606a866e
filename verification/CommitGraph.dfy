/**
 The commit graph behind the merge queue, and the authoritative merge classification over it
 (argent_core/integration_candidate.py).  `git` itself is the graph: every commit with the set of its
 ancestors, itself included.
 */
module CommitGraph {
  import opened Wrappers

  type Sha = nat
  type Graph = map<Sha, set<Sha>>

  ghost predicate ValidGraph(g: Graph) {
    && (forall c :: c in g ==> c in g[c] && g[c] <= g.Keys)
    && (forall a, b :: b in g && a in g[b] && a in g ==> g[a] <= g[b])
    && (forall a, b :: a in g && b in g && a in g[b] && b in g[a] ==> a == b)
  }

  predicate IsAncestor(g: Graph, a: Sha, b: Sha) {
    b in g && a in g[b]
  }

  function AncestorsOf(g: Graph, parents: set<Sha>): set<Sha>
    requires parents <= g.Keys
  {
    set p, a | p in parents && a in g[p] :: a
  }

  /** A new commit on existing parents. */
  function AddCommit(g: Graph, sha: Sha, parents: set<Sha>): Graph
    requires parents <= g.Keys
  {
    g[sha := {sha} + AncestorsOf(g, parents)]
  }

  lemma AddCommitKeepsValid(g: Graph, sha: Sha, parents: set<Sha>)
    requires ValidGraph(g) && parents <= g.Keys && sha !in g
    ensures ValidGraph(AddCommit(g, sha, parents))
    ensures forall c :: c in g ==> AddCommit(g, sha, parents)[c] == g[c]
    ensures forall p :: p in parents ==> IsAncestor(AddCommit(g, sha, parents), p, sha)
  {
    var h := AddCommit(g, sha, parents);
    forall p | p in parents ensures p in h[sha] {
      assert p in g[p];
    }
    forall a, b | b in h && a in h[b] && a in h ensures h[a] <= h[b] {
      if b == sha && a != sha {
        var p :| p in parents && a in g[p];
        assert g[a] <= g[p];
      } else if b != sha {
        assert a in g;
      }
    }
  }

  predicate Common(g: Graph, m: Sha, a: Sha, b: Sha) {
    IsAncestor(g, m, a) && IsAncestor(g, m, b)
  }

  /** What `git merge-base` may answer: some best common ancestor, or none when there is no common one. */
  ghost predicate IsMergeBase(g: Graph, mb: Option<Sha>, a: Sha, b: Sha) {
    match mb
    case None => forall m :: !Common(g, m, a, b)
    case Some(m) => Common(g, m, a, b) && forall n :: Common(g, n, a, b) && IsAncestor(g, m, n) ==> n == m
  }

  datatype MergeClassification = CleanApply | DivergedClean | Conflict | StaleBase | DependencyNotIntegrated | Unknown

  /** `classify_merge`; `mergeBase` and `conflicts` are git's answers about the two commits. */
  function ClassifyMerge(g: Graph, targetTip: Option<Sha>, sourceHead: Option<Sha>, claimedBase: Option<Sha>,
                         dependencyIntegrated: bool, mergeBase: Option<Sha>, conflicts: Option<bool>): MergeClassification
  {
    if !dependencyIntegrated then DependencyNotIntegrated
    else if targetTip.None? || sourceHead.None? then Unknown
    else if mergeBase.None? then StaleBase
    else if claimedBase.Some? && !IsAncestor(g, claimedBase.value, targetTip.value) then StaleBase
    else if claimedBase.Some? && !IsAncestor(g, claimedBase.value, sourceHead.value) then StaleBase
    else if targetTip == mergeBase then CleanApply
    else if sourceHead == mergeBase then StaleBase
    else if conflicts.None? then Unknown
    else if conflicts.value then Conflict
    else DivergedClean
  }

  /** What each verdict says about the history, whichever best common ancestor git picks. */
  lemma ClassificationMeaning(g: Graph, target: Sha, source: Sha, claimedBase: Option<Sha>, mergeBase: Option<Sha>, conflicts: Option<bool>)
    requires ValidGraph(g) && target in g && source in g && IsMergeBase(g, mergeBase, target, source)
    ensures var v := ClassifyMerge(g, Some(target), Some(source), claimedBase, true, mergeBase, conflicts);
            var sound := claimedBase.Some? ==> Common(g, claimedBase.value, target, source);
            var related := exists m :: Common(g, m, target, source);
            var diverged := sound && related && !IsAncestor(g, target, source) && !IsAncestor(g, source, target);
            && (v == CleanApply <==> sound && IsAncestor(g, target, source))
            && (v == StaleBase <==> !related || !sound || (IsAncestor(g, source, target) && source != target))
            && (v == DivergedClean <==> diverged && conflicts == Some(false))
            && (v == Conflict <==> diverged && conflicts == Some(true))
            && (v == Unknown <==> diverged && conflicts == None)
  {
    assert target in g[target] && source in g[source];
    if IsAncestor(g, target, source) {
      assert Common(g, target, target, source);
    }
    if IsAncestor(g, source, target) {
      assert Common(g, source, target, source);
    }
    if mergeBase.Some? {
      assert Common(g, mergeBase.value, target, source);
    }
  }
}
