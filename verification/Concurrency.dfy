/** The structural concurrency policy (argent_core/concurrency_policy.py). */
module Concurrency {
  import opened Wrappers
  import opened PathRoots

  datatype Role = Lead | Analyst | Reviewer | Implementer | Qa | OtherRole
  datatype ResourceClass = Light | Medium | Heavy | Exclusive | OtherClass
  datatype ActionClass = NormalAction | GlobalAction | RepoGlobalAction
  datatype Dependency = NoDependency | Missing | Terminal(done: bool)

  datatype Footprint = Footprint(repo: Option<string>, worktree: Option<string>, branch: Option<string>, roots: seq<string>, target: Option<string>)
  datatype Job = Job(id: nat, role: Role, resource: ResourceClass, footprint: Footprint, dependency: Dependency, action: ActionClass)

  datatype Overlap = Overlapping | Disjoint | UnknownOverlap
  datatype Verdict = AllowParallel | Serialize | Defer | Block
  datatype ReasonCode =
    | DependencyUnknown | DependencyNotMet | ActionGlobalSerialize | WorktreeConflict | RepoOverlap | UnknownOverlapCode
    | DistinctRepo | DistinctWorktree | ReadonlySafe
  datatype Decision = Decision(verdict: Verdict, reason: ReasonCode, conflict: Option<nat>)

  predicate IsWriter(j: Job) {
    j.role in {Implementer, Qa} || j.resource in {Medium, Heavy, Exclusive}
  }

  /** Python's truth of an optional string. */
  predicate Given(s: Option<string>) {
    s.Some? && s.value != ""
  }

  function FootprintOverlap(a: Footprint, b: Footprint): Overlap {
    if !Given(a.repo) || !Given(b.repo) then UnknownOverlap
    else if a.repo != b.repo then Disjoint
    else if Given(a.branch) && a.branch == b.branch then Overlapping
    else if Given(a.target) && a.target == b.target then Overlapping
    else if a.roots == [] || b.roots == [] then UnknownOverlap
    else if PathRootsConflict(a.roots, b.roots) then Overlapping
    else Disjoint
  }

  predicate SameRepo(a: Job, b: Job) {
    a.footprint.repo.Some? && a.footprint.repo == b.footprint.repo
  }

  /** Why candidate `c` may not run beside active job `a` on account of a serialized action class. */
  predicate ActiveSerializes(c: Job, a: Job) {
    a.action == GlobalAction || (a.action == RepoGlobalAction && SameRepo(a, c))
  }

  predicate CandidateSerializes(c: Job, a: Job) {
    c.action == GlobalAction || (c.action == RepoGlobalAction && SameRepo(a, c))
  }

  predicate SameWorktree(a: Job, b: Job) {
    Given(a.footprint.worktree) && a.footprint.worktree == b.footprint.worktree
  }

  /** The structural reason against one active writer, if any. */
  function WriterConflict(c: Job, a: Job): Option<ReasonCode> {
    if !IsWriter(a) then None
    else if SameWorktree(c, a) then Some(WorktreeConflict)
    else match FootprintOverlap(c.footprint, a.footprint)
         case Overlapping => Some(RepoOverlap)
         case UnknownOverlap => Some(UnknownOverlapCode)
         case Disjoint => None
  }

  // ------------------------------------------------------------------ the decision

  function FirstWhere(active: seq<Job>, from: nat, p: Job -> bool): (i: nat)
    requires from <= |active|
    ensures from <= i <= |active| && (forall k :: from <= k < i ==> !p(active[k])) && (i < |active| ==> p(active[i]))
    decreases |active| - from
  {
    if from == |active| || p(active[from]) then from else FirstWhere(active, from + 1, p)
  }

  function Decide(c: Job, active: seq<Job>): Decision {
    if c.dependency == Missing then Decision(Block, DependencyUnknown, None)
    else if c.dependency == Terminal(false) then Decision(Defer, DependencyNotMet, None)
    else
      var i := FirstWhere(active, 0, a => CandidateSerializes(c, a));
      if i < |active| then Decision(Serialize, ActionGlobalSerialize, Some(active[i].id))
      else
        var j := FirstWhere(active, 0, a => ActiveSerializes(c, a));
        if j < |active| then Decision(Serialize, ActionGlobalSerialize, Some(active[j].id))
        else if !IsWriter(c) then Decision(AllowParallel, ReadonlySafe, None)
        else
          var k := FirstWhere(active, 0, a => WriterConflict(c, a).Some?);
          if k < |active| then Decision(Serialize, WriterConflict(c, active[k]).value, Some(active[k].id))
          else if exists a :: a in active && IsWriter(a) && InOtherRepo(c, a) then Decision(AllowParallel, DistinctRepo, None)
          else Decision(AllowParallel, DistinctWorktree, None)
  }

  predicate InOtherRepo(c: Job, a: Job) {
    c.footprint.repo.Some? && a.footprint.repo.Some? && c.footprint.repo != a.footprint.repo
  }

  /** What admission means, job by job: independent of any order. */
  predicate Compatible(a: Job, b: Job) {
    && a.action != GlobalAction && b.action != GlobalAction
    && (a.action == RepoGlobalAction || b.action == RepoGlobalAction ==> !SameRepo(a, b))
    && (IsWriter(a) && IsWriter(b) ==> !SameWorktree(a, b) && FootprintOverlap(a.footprint, b.footprint) == Disjoint)
  }

  lemma CompatibleIsSymmetric(a: Job, b: Job)
    ensures Compatible(a, b) == Compatible(b, a)
    ensures FootprintOverlap(a.footprint, b.footprint) == FootprintOverlap(b.footprint, a.footprint)
  {
    hide IsPrefix, NormRel;
    ConflictIsSymmetric(a.footprint.roots, b.footprint.roots);
    ConflictIsSymmetric(b.footprint.roots, a.footprint.roots);
  }

  lemma ConflictIsSymmetric(a: seq<string>, b: seq<string>)
    ensures PathRootsConflict(a, b) ==> PathRootsConflict(b, a)
  {
    hide IsPrefix, Norms;
  }

  /** A candidate is allowed exactly when its dependency is met and it is compatible with every active job. */
  lemma AllowedIff(c: Job, active: seq<Job>)
    ensures Decide(c, active).verdict == AllowParallel <==>
              c.dependency in {NoDependency, Terminal(true)} && forall a :: a in active ==> Compatible(c, a)
  {
    hide FootprintOverlap;
    forall a | a in active
      ensures Compatible(c, a) <==> !CandidateSerializes(c, a) && !ActiveSerializes(c, a) && (IsWriter(c) ==> WriterConflict(c, a).None?)
    {
    }
  }

  /** Whether a job is allowed does not depend on how the active jobs are listed. */
  lemma OrderDoesNotMatter(c: Job, a: seq<Job>, b: seq<Job>)
    requires forall j :: j in a <==> j in b
    ensures (Decide(c, a).verdict == AllowParallel) == (Decide(c, b).verdict == AllowParallel)
  {
    hide Decide, Compatible;
    AllowedIff(c, a);
    AllowedIff(c, b);
  }

  /** Why a job is not admitted: its prerequisite is unknown, or not done, or some active job stands against it; that job is
      named, and none listed before it stands against the candidate in the same way. */
  lemma VerdictIff(c: Job, active: seq<Job>)
    ensures var d := Decide(c, active);
            && (d.verdict == Block <==> c.dependency == Missing)
            && (d.verdict == Defer <==> c.dependency == Terminal(false))
            && (d.verdict == Serialize <==> c.dependency in {NoDependency, Terminal(true)} && exists a :: a in active && !Compatible(c, a))
            && (d.conflict.Some? <==> d.verdict == Serialize)
            && (d.verdict == Serialize ==> exists i :: Stands(c, active, i, d))
  {
    hide FootprintOverlap, SameWorktree;
    AllowedIff(c, active);
    var d := Decide(c, active);
    if d.verdict == Serialize {
      var i := FirstWhere(active, 0, a => CandidateSerializes(c, a));
      var j := FirstWhere(active, 0, a => ActiveSerializes(c, a));
      var k := FirstWhere(active, 0, a => WriterConflict(c, a).Some?);
      assert Stands(c, active, if i < |active| then i else if j < |active| then j else k, d);
    }
  }

  /** Active job `i` is the one named by `d`, for the reason given, and the first of its kind. */
  predicate Stands(c: Job, active: seq<Job>, i: nat, d: Decision) {
    && i < |active| && d.conflict == Some(active[i].id)
    && match d.reason
       case ActionGlobalSerialize =>
         || ((c.action == GlobalAction || (c.action == RepoGlobalAction && SameRepo(active[i], c)))
             && forall j :: 0 <= j < i ==> c.action == RepoGlobalAction && !SameRepo(active[j], c))
         || ((active[i].action == GlobalAction || (active[i].action == RepoGlobalAction && SameRepo(active[i], c)))
             && forall j :: 0 <= j < i ==> active[j].action != GlobalAction && !(active[j].action == RepoGlobalAction && SameRepo(active[j], c)))
       case WorktreeConflict => IsWriter(c) && IsWriter(active[i]) && SameWorktree(c, active[i]) && NoneBefore(c, active, i)
       case RepoOverlap =>
         && IsWriter(c) && IsWriter(active[i]) && !SameWorktree(c, active[i]) && NoneBefore(c, active, i)
         && FootprintOverlap(c.footprint, active[i].footprint) == Overlapping
       case UnknownOverlapCode =>
         && IsWriter(c) && IsWriter(active[i]) && !SameWorktree(c, active[i]) && NoneBefore(c, active, i)
         && FootprintOverlap(c.footprint, active[i].footprint) == UnknownOverlap
       case _ => false
  }

  predicate NoneBefore(c: Job, active: seq<Job>, i: nat)
    requires i <= |active|
  {
    forall j :: 0 <= j < i && IsWriter(active[j]) ==> !SameWorktree(c, active[j]) && FootprintOverlap(c.footprint, active[j].footprint) == Disjoint
  }

  // ------------------------------------------------------------------ admission runs

  datatype Event = Join(job: Job) | Leave(index: nat)

  /** Jobs join only when they are allowed to run in parallel, and leave at any time. */
  function Admit(active: seq<Job>, e: Event): seq<Job> {
    match e
    case Join(j) => if Decide(j, active).verdict == AllowParallel then active + [j] else active
    case Leave(i) => if i < |active| then active[..i] + active[i + 1..] else active
  }

  function AdmitAll(active: seq<Job>, events: seq<Event>): seq<Job>
    decreases |events|
  {
    if events == [] then active else AdmitAll(Admit(active, events[0]), events[1..])
  }

  predicate PairwiseCompatible(active: seq<Job>) {
    forall i, j :: 0 <= i < j < |active| ==> Compatible(active[i], active[j])
  }

  lemma AdmitKeepsApart(active: seq<Job>, e: Event)
    requires PairwiseCompatible(active)
    ensures PairwiseCompatible(Admit(active, e))
  {
    hide Decide, Compatible;
    var next := Admit(active, e);
    if e.Join? && next != active {
      AllowedIff(e.job, active);
      forall i, j | 0 <= i < j < |next| ensures Compatible(next[i], next[j]) {
        CompatibleIsSymmetric(e.job, next[i]);
      }
    }
  }

  lemma {:induction false} RunsKeepApart(active: seq<Job>, events: seq<Event>)
    requires PairwiseCompatible(active)
    ensures PairwiseCompatible(AdmitAll(active, events))
    decreases |events|
  {
    hide PairwiseCompatible, Admit;
    if events != [] {
      AdmitKeepsApart(active, events[0]);
      RunsKeepApart(Admit(active, events[0]), events[1..]);
    }
  }

  /** Admission runs stay conflict-free: any two active writers have different worktrees and disjoint footprints, a
      GLOBAL job is alone, and a REPO_GLOBAL job is alone in its repository. */
  lemma AdmissionStaysConflictFree(events: seq<Event>, i: nat, j: nat)
    requires i < |AdmitAll([], events)| && j < |AdmitAll([], events)| && i != j
    ensures var x, y := AdmitAll([], events)[i], AdmitAll([], events)[j];
            && (IsWriter(x) && IsWriter(y) ==> !SameWorktree(x, y) && FootprintOverlap(x.footprint, y.footprint) == Disjoint)
            && x.action != GlobalAction
            && (x.action == RepoGlobalAction ==> !SameRepo(x, y))
  {
    hide Admit, FootprintOverlap;
    RunsKeepApart([], events);
    var active := AdmitAll([], events);
    CompatibleIsSymmetric(active[i], active[j]);
    assert if i < j then Compatible(active[i], active[j]) else Compatible(active[j], active[i]);
  }

  /** Two admitted writers of one repository never touch a common path, when their roots are canonical. */
  lemma AdmittedWritersShareNoPath(events: seq<Event>, i: nat, j: nat, path: seq<string>)
    requires i < |AdmitAll([], events)| && j < |AdmitAll([], events)| && i != j
    requires var x, y := AdmitAll([], events)[i], AdmitAll([], events)[j];
             && IsWriter(x) && IsWriter(y) && SameRepo(x, y)
             && forall r :: r in x.footprint.roots || r in y.footprint.roots ==> Canonical(r)
    ensures var x, y := AdmitAll([], events)[i], AdmitAll([], events)[j];
            !((exists r :: r in x.footprint.roots && Under(path, r)) && (exists r :: r in y.footprint.roots && Under(path, r)))
  {
    hide AdmitAll, Canonical, Under, PathRootsConflict;
    AdmissionStaysConflictFree(events, i, j);
    var x, y := AdmitAll([], events)[i], AdmitAll([], events)[j];
    ConflictIsOverlap(x.footprint.roots, y.footprint.roots);
  }

  /** The same without the policy's own words: two admitted jobs that write, be it by role or by resource class, never share a
      worktree, and within one repository neither branch nor target, and both say where they write. */
  lemma AdmittedWritersInPlainTerms(events: seq<Event>, i: nat, j: nat)
    requires i < |AdmitAll([], events)| && j < |AdmitAll([], events)| && i != j
    requires var x, y := AdmitAll([], events)[i], AdmitAll([], events)[j];
             && (x.role == Implementer || x.role == Qa || x.resource == Medium || x.resource == Heavy || x.resource == Exclusive)
             && (y.role == Implementer || y.role == Qa || y.resource == Medium || y.resource == Heavy || y.resource == Exclusive)
    ensures var x, y := AdmitAll([], events)[i].footprint, AdmitAll([], events)[j].footprint;
            && (x.worktree.Some? && x.worktree.value != "" ==> x.worktree != y.worktree)
            && x.repo.Some? && y.repo.Some? && x.repo.value != "" && y.repo.value != ""
            && (x.repo == y.repo ==>
                  && (x.branch.Some? && x.branch.value != "" ==> x.branch != y.branch)
                  && (x.target.Some? && x.target.value != "" ==> x.target != y.target)
                  && x.roots != [] && y.roots != [])
  {
    hide AdmitAll, PathRootsConflict;
    AdmissionStaysConflictFree(events, i, j);
  }

  /** The consequence of a root that vanishes: two writers of one repository that both declare it, in different
      worktrees, are admitted side by side. */
  lemma VanishingRootAdmitsBoth(alpha: char -> bool) returns (x: Job, y: Job)
    ensures IsWriter(x) && IsWriter(y) && SameRepo(x, y) && x.footprint.roots == y.footprint.roots == ["x/.. "]
    ensures ValidateRelRoot("x/.. /.", alpha) == Some("x/.. ")
    ensures AdmitAll([], [Event.Join(x), Event.Join(y)]) == [x, y]
  {
    hide Decide, PathRootsConflict, ValidateRelRoot, Compatible;
    TrailingSpaceVanishes(alpha);
    var root := ["x/.. "];
    x := Job(0, Implementer, Light, Footprint(Some("r"), Some("v"), None, root, None), NoDependency, NormalAction);
    y := Job(1, Implementer, Light, Footprint(Some("r"), Some("w"), None, root, None), NoDependency, NormalAction);
    assert Compatible(y, x) by { DistinctButForTheRoot(x, y); }
    AllowedIff(x, []);
    AllowedIff(y, [x]);
    assert [] + [x] == [x] && [x] + [y] == [x, y];
    var events := [Event.Join(x), Event.Join(y)];
    assert events[1..] == [Event.Join(y)] && events[1..][1..] == [];
    assert AdmitAll([x, y], []) == [x, y] && AdmitAll([x], [Event.Join(y)]) == [x, y];
  }

  lemma DistinctButForTheRoot(x: Job, y: Job)
    requires x.action == y.action == NormalAction && Given(x.footprint.repo) && x.footprint.repo == y.footprint.repo
    requires Given(y.footprint.worktree) && x.footprint.worktree != y.footprint.worktree
    requires x.footprint.branch == y.footprint.branch == x.footprint.target == y.footprint.target == None
    requires x.footprint.roots != [] && y.footprint.roots != [] && !PathRootsConflict(y.footprint.roots, x.footprint.roots)
    ensures Compatible(y, x)
  {
    hide PathRootsConflict;
  }

  // ------------------------------------------------------------------ the loops

  /** `decide`, as the chain of scans with early returns. */
  method DecideJob(c: Job, active: seq<Job>) returns (d: Decision)
    ensures d == Decide(c, active)
  {
    hide FootprintOverlap;
    if c.dependency == Missing {
      return Decision(Block, DependencyUnknown, None);
    }
    if c.dependency == Terminal(false) {
      return Decision(Defer, DependencyNotMet, None);
    }
    if c.action == GlobalAction {
      if active != [] {
        return Decision(Serialize, ActionGlobalSerialize, Some(active[0].id));
      }
    } else if c.action == RepoGlobalAction {
      for i := 0 to |active|
        invariant forall k :: 0 <= k < i ==> !CandidateSerializes(c, active[k])
      {
        if active[i].footprint.repo.Some? && active[i].footprint.repo == c.footprint.repo {
          assert FirstWhere(active, 0, a => CandidateSerializes(c, a)) == i;
          return Decision(Serialize, ActionGlobalSerialize, Some(active[i].id));
        }
      }
    }
    assert FirstWhere(active, 0, a => CandidateSerializes(c, a)) == |active|;
    for i := 0 to |active|
      invariant forall k :: 0 <= k < i ==> !ActiveSerializes(c, active[k])
    {
      if active[i].action == GlobalAction
         || (active[i].action == RepoGlobalAction && active[i].footprint.repo.Some? && active[i].footprint.repo == c.footprint.repo) {
        assert FirstWhere(active, 0, a => ActiveSerializes(c, a)) == i;
        return Decision(Serialize, ActionGlobalSerialize, Some(active[i].id));
      }
    }
    assert FirstWhere(active, 0, a => ActiveSerializes(c, a)) == |active|;
    if !IsWriter(c) {
      return Decision(AllowParallel, ReadonlySafe, None);
    }
    var elsewhere := false;
    for i := 0 to |active|
      invariant forall k :: 0 <= k < i ==> WriterConflict(c, active[k]).None?
      invariant elsewhere <==> exists k :: 0 <= k < i && IsWriter(active[k]) && InOtherRepo(c, active[k])
    {
      var conflict := WriterConflict(c, active[i]);
      if conflict.Some? {
        assert FirstWhere(active, 0, a => WriterConflict(c, a).Some?) == i;
        return Decision(Serialize, conflict.value, Some(active[i].id));
      }
      if IsWriter(active[i]) && InOtherRepo(c, active[i]) {
        elsewhere := true;
      }
    }
    assert FirstWhere(active, 0, a => WriterConflict(c, a).Some?) == |active|;
    assert elsewhere <==> exists a :: a in active && IsWriter(a) && InOtherRepo(c, a);
    d := if elsewhere then Decision(AllowParallel, DistinctRepo, None) else Decision(AllowParallel, DistinctWorktree, None);
  }
}
