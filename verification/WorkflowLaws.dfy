/** What recovery may do to a writer, and who works when in a cycle. */
module WorkflowLaws {
  import opened Wrappers
  import opened StateMachine
  import opened Workflow

  // ------------------------------------------------------------------ writers are never given up by recovery

  lemma StepFailsNoWriter(f: Flow, cmd: Command, i: nat)
    requires i < |Step(f, cmd).0.dispatches|
    requires var e := Step(f, cmd).0.dispatches[i]; e.role == Implementer && e.status == FailedDispatch
    ensures cmd == MarkFailed(i) || (i < |f.dispatches| && f.dispatches[i].role == Implementer && f.dispatches[i].status == FailedDispatch)
  {
    hide WorkflowFrontier, StateSync, RecoverTask;
  }

  /** In every run an implementer row is FAILED only because `mark_agent_failed` named it; no recovery fails one. */
  lemma {:induction false} WriterFailsOnlyWhenMarked(f: Flow, cmds: seq<Command>, i: nat)
    requires i < |Run(f, cmds).dispatches|
    requires var e := Run(f, cmds).dispatches[i]; e.role == Implementer && e.status == FailedDispatch
    ensures MarkFailed(i) in cmds || (i < |f.dispatches| && f.dispatches[i].role == Implementer && f.dispatches[i].status == FailedDispatch)
    decreases |cmds|
  {
    hide Step;
    if cmds != [] {
      WriterFailsOnlyWhenMarked(Step(f, cmds[0]).0, cmds[1..], i);
      if MarkFailed(i) in cmds[1..] {
        assert MarkFailed(i) in cmds;
      } else {
        StepFailsNoWriter(f, cmds[0], i);
      }
    }
  }

  /** An unresolved writer parks its task: nothing else can be dispatched until it is resolved. */
  lemma UnresolvedWriterParks(f: Flow, i: nat)
    requires i < |f.dispatches| && f.dispatches[i].role == Implementer && f.dispatches[i].status in {Pending, Running, RecoveryPending}
    ensures var g := Step(f, Recover).0;
            && g.dispatches[i].status == RecoveryPending && !Dispatchable(g)
            && (!IsTerminal(f.task.state) && !IsPause(f.task.state) ==> g.task == Task(TaskState.Recovering, Some(f.task.state)))
            && forall role, position, cycle, kind, admitted :: Step(g, CreateDispatch(role, position, cycle, kind, admitted)).1 == Refused
  {
    hide WorkflowFrontier;
    var g := Step(f, Recover).0;
    assert IsActive(g.dispatches[i]);
  }

  /** What the other reports make of a row: a bound one runs if its spawn matches and is rejected otherwise, a malformed result
      is rejected and decides nothing, and only a row that runs or is unresolved can be failed. */
  lemma ReportsMark(f: Flow, i: nat, matches: bool, verdict: Verdict, toggle: Option<bool>, findings: bool)
    requires i < |f.dispatches|
    ensures var d := f.dispatches[i];
            var bound := Step(f, BindSpawnResult(i, matches));
            var received := Step(f, ReceiveResult(i, true, false, verdict, toggle, findings));
            var failed := Step(f, MarkFailed(i));
            && (bound.1 == Applied <==> d.status in {Pending, RecoveryPending})
            && (bound.1 == Applied ==> bound.0 == f.(dispatches := f.dispatches[i := d.(status := if matches then Running else Rejected)]))
            && (received.1 == Applied <==> d.status in {Running, RecoveryPending} && f.task.state !in {Done, Cancelled})
            && (received.1 == Applied ==> received.0 == f.(dispatches := f.dispatches[i := d.(status := Rejected)]))
            && (failed.1 == Applied <==> d.status in {Running, RecoveryPending})
            && (failed.1 == Applied ==> failed.0 == f.(dispatches := f.dispatches[i := d.(status := FailedDispatch)]))
            && (bound.1 != Applied ==> bound.0 == f) && (received.1 != Applied ==> received.0 == f) && (failed.1 != Applied ==> failed.0 == f)
            && Step(f, ReceiveResult(i, false, true, verdict, toggle, findings)) == (f, Refused)
  {
  }

  // ------------------------------------------------------------------ who works when

  function Roles(ds: seq<Dispatch>): seq<Role> {
    seq(|ds|, i requires 0 <= i < |ds| => ds[i].role)
  }

  /** `k` positions of cycle `c` are done, the others are to come, and the lead has accepted so far. */
  predicate Underway(f: Flow, c: nat, k: nat) {
    && f.dispatches != [] && !ReworkPending(f) && MaxCycle(f.dispatches) == c && |ConsumedPositions(f.dispatches, c)| == k
    && LastVerdict(f) == Some(Accept) && f.task.state == StateFromHistory(f)
    && forall i :: 0 <= i < |f.dispatches| ==> !IsActive(f.dispatches[i])
  }

  /** The next role reports and the lead, if it is the lead, accepts. */
  lemma NextReports(f: Flow, c: nat, k: nat, n: nat) returns (cmds: seq<Command>)
    requires Inv(f) && Underway(f, c, k) && c >= 1
    requires var order := EffectiveSequence(if c <= 1 then StandardKind else ReworkKind, IncludeNow(f)); n == |order| && k < n
    requires !IsTerminal(f.task.state) && !IsPause(f.task.state)
    ensures var g := Run(f, cmds);
            var role := EffectiveSequence(if c <= 1 then StandardKind else ReworkKind, IncludeNow(f))[k];
            && Inv(g) && Underway(g, c, k + 1) && Roles(g.dispatches) == Roles(f.dispatches) + [role]
            && g.decisions == f.decisions + (if role == Lead then [Decision(Accept, c, None)] else [])
            && g.openFindings == f.openFindings
            && g.dispatches == f.dispatches + [Dispatch(c, k, if c <= 1 then StandardKind else ReworkKind, role, Consumed)]
  {
    hide ConsumedInOrder, ActiveAtFrontier, WellShaped, ConsumedPositions, KindOfCycle, MaxCycle, IncludeNow, ReworkPending,
         OriginatingRework, Step, Run, Agree, StateFromHistory;
    FrontierPosition(f);
    cmds := OneDispatch(f, Accept, None, f.openFindings);
    Progress(f, Accept, None, f.openFindings);
  }

  lemma FirstReports(verdict: Verdict, toggle: Option<bool>) returns (cmds: seq<Command>)
    ensures var g := Run(FRESH, cmds);
            && Inv(g) && g.dispatches == [Dispatch(1, 0, StandardKind, Lead, Consumed)] && g.decisions == [Decision(verdict, 1, toggle)]
            && !g.openFindings && MaxCycle(g.dispatches) == 1 && |ConsumedPositions(g.dispatches, 1)| == 1
            && (ReworkPending(g) <==> verdict == ReworkVerdict) && g.task.state == StateFromHistory(g)
            && forall i :: 0 <= i < |g.dispatches| ==> !IsActive(g.dispatches[i])
  {
    hide ConsumedInOrder, ActiveAtFrontier, WellShaped, ConsumedPositions, KindOfCycle, MaxCycle, Step, Run, Agree, StateFromHistory, ReworkPending;
    FreshInv();
    cmds := OneDispatch(FRESH, verdict, toggle, false);
    Progress(FRESH, verdict, toggle, false);
  }

  lemma StandardState(f: Flow, k: nat)
    requires Inv(f) && Underway(f, 1, k) && 1 <= k <= 7
    ensures f.task.state == [Planning, Analyzing, LeadDecision, Implementing, Testing, Reviewing, Done][k - 1] && IncludeNow(f)
  {
    hide ConsumedInOrder, ActiveAtFrontier, Agree;
    KindByNumber(f.dispatches, 1);
  }

  /** A standard cycle that is accepted throughout: the seven roles in their order, from a fresh task to DONE. */
  lemma StandardCycleCompletes() returns (cmds: seq<Command>)
    ensures var f := Run(FRESH, cmds);
            && f.task.state == Done && (forall i :: 0 <= i < |f.dispatches| ==> f.dispatches[i].status == Consumed)
            && Roles(f.dispatches) == [Lead, Analyst, Lead, Implementer, Qa, Reviewer, Lead]
  {
    hide Inv, Run, Underway, ReworkPending, MaxCycle, ConsumedPositions, StateFromHistory, IncludeNow;
    cmds := FirstReports(Accept, None);
    assert Underway(Run(FRESH, cmds), 1, 1) by { StartsUnderway(Run(FRESH, cmds)); }
    var k := 1;
    while k < 7
      invariant 1 <= k <= 7 && Inv(Run(FRESH, cmds)) && Underway(Run(FRESH, cmds), 1, k)
      invariant Roles(Run(FRESH, cmds).dispatches) == [Lead, Analyst, Lead, Implementer, Qa, Reviewer, Lead][..k]
      invariant forall i :: 0 <= i < |Run(FRESH, cmds).dispatches| ==> Run(FRESH, cmds).dispatches[i].status == Consumed
    {
      StandardState(Run(FRESH, cmds), k);
      var more := NextReports(Run(FRESH, cmds), 1, k, 7);
      RunConcat(FRESH, cmds, more);
      cmds := cmds + more;
      k := k + 1;
    }
    StandardState(Run(FRESH, cmds), 7);
  }

  lemma StartsUnderway(f: Flow)
    requires f.dispatches == [Dispatch(1, 0, StandardKind, Lead, Consumed)] && f.decisions == [Decision(Accept, 1, None)]
    requires MaxCycle(f.dispatches) == 1 && |ConsumedPositions(f.dispatches, 1)| == 1 && !ReworkPending(f) && f.task.state == StateFromHistory(f)
    ensures Underway(f, 1, 1)
  {
  }

  const OPENING := Dispatch(1, 0, StandardKind, Lead, Consumed)

  /** The roles of a rework cycle. */
  function ReworkRoles(withReviewer: bool): seq<Role> {
    if withReviewer then [Lead, Implementer, Qa, Reviewer, Lead] else [Lead, Implementer, Qa, Lead]
  }

  /** `k` rows of a rework cycle, all consumed. */
  function ReworkRows(withReviewer: bool, k: nat): seq<Dispatch>
    requires k <= |ReworkRoles(withReviewer)|
  {
    seq(k, j requires 0 <= j < k => Dispatch(2, j, ReworkKind, ReworkRoles(withReviewer)[j], Consumed))
  }

  predicate InRework(f: Flow, withReviewer: bool, k: nat) {
    && Underway(f, 2, k) && 1 <= k <= |ReworkRoles(withReviewer)| && f.dispatches == [OPENING] + ReworkRows(withReviewer, k)
    && f.decisions == [Decision(ReworkVerdict, 1, Some(withReviewer)), Decision(Accept, 2, None)]
                      + (if k == |ReworkRoles(withReviewer)| then [Decision(Accept, 2, None)] else [])
  }

  lemma ReworkState(f: Flow, withReviewer: bool, k: nat)
    requires Inv(f) && InRework(f, withReviewer, k)
    ensures f.task.state == if k == |ReworkRoles(withReviewer)| then Done else [Rework, Implementing, Testing, Reviewing][k - 1]
    ensures k < |ReworkRoles(withReviewer)| ==> IncludeNow(f) == withReviewer
  {
    hide ConsumedInOrder, ActiveAtFrontier, Agree, ConsumedPositions, MaxCycle;
    var ds := f.dispatches;
    assert ds[1].cycle == 2;
    KindByNumber(ds, 2);
    if !withReviewer && k == 4 {
      assert ds[4].position == 3 && ds[4].role == Lead;
      assert LeadAtThree(ds, 2);
    } else {
      assert !LeadAtThree(ds, 2);
    }
    if k < |ReworkRoles(withReviewer)| {
      assert f.decisions[..1] == [Decision(ReworkVerdict, 1, Some(withReviewer))] && f.decisions[..1][..0] == [];
      assert OriginatingRework(f.decisions[..1], 1) == Some(f.decisions[0]);
      assert OriginatingRework(f.decisions, 1) == Some(f.decisions[0]);
    }
  }

  lemma OpensRework(withReviewer: bool) returns (cmds: seq<Command>)
    ensures Inv(Run(FRESH, cmds)) && InRework(Run(FRESH, cmds), withReviewer, 1)
  {
    hide ConsumedInOrder, ActiveAtFrontier, WellShaped, ConsumedPositions, KindOfCycle, MaxCycle, Step, Run, Agree;
    cmds := FirstReports(ReworkVerdict, Some(withReviewer));
    var g := Run(FRESH, cmds);
    assert g.task.state == Rework;
    var more := OneDispatch(g, Accept, None, false);
    Progress(g, Accept, None, false);
    RunConcat(FRESH, cmds, more);
    cmds := cmds + more;
    assert ReworkRows(withReviewer, 1) == [Dispatch(2, 0, ReworkKind, Lead, Consumed)];
  }

  /** A rework cycle that is accepted throughout works through exactly the roles its opening decision asked for, with or
      without the reviewer, and ends in DONE. */
  lemma ReworkCycleCompletes(withReviewer: bool) returns (cmds: seq<Command>)
    ensures var f := Run(FRESH, cmds);
            && f.task.state == Done && (forall i :: 0 <= i < |f.dispatches| ==> f.dispatches[i].status == Consumed)
            && Roles(f.dispatches) == [Lead] + if withReviewer then [Lead, Implementer, Qa, Reviewer, Lead] else [Lead, Implementer, Qa, Lead]
  {
    hide Inv, Run, Underway, ReworkPending, MaxCycle, ConsumedPositions, StateFromHistory, IncludeNow;
    cmds := OpensRework(withReviewer);
    var n := |ReworkRoles(withReviewer)|;
    var k := 1;
    while k < n
      invariant 1 <= k <= n && Inv(Run(FRESH, cmds)) && InRework(Run(FRESH, cmds), withReviewer, k)
    {
      ReworkState(Run(FRESH, cmds), withReviewer, k);
      var more := NextReports(Run(FRESH, cmds), 2, k, n);
      RunConcat(FRESH, cmds, more);
      cmds := cmds + more;
      k := k + 1;
      assert ReworkRows(withReviewer, k) == ReworkRows(withReviewer, k - 1) + [Dispatch(2, k - 1, ReworkKind, ReworkRoles(withReviewer)[k - 1], Consumed)];
    }
    ReworkState(Run(FRESH, cmds), withReviewer, n);
  }
}
