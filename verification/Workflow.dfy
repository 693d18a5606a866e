// argent_core/core.py, argent_core/workflow.py: the workflow engine
module Workflow {
  /*
   The workflow engine (argent_core/workflow.py and the orchestration layer of argent_core/core.py),
   for one task.

   The next dispatch position is recomputed from the dispatch history and the lead decisions; when a
   result is consumed, the separate task state machine is synchronised in the same transaction.  This
   module gives both views as functions on values and proves that they never diverge.
   */
  import opened Wrappers
  import opened StateMachine

  datatype Role = Lead | Analyst | Implementer | Qa | Reviewer
  datatype Kind = StandardKind | ReworkKind
  datatype DispatchStatus = Pending | Running | Consumed | FailedDispatch | Rejected | RecoveryPending
  datatype Verdict = Accept | ReworkVerdict | Cancel | RequestOwnerGate

  datatype Dispatch = Dispatch(cycle: nat, position: nat, kind: Kind, role: Role, status: DispatchStatus)
  datatype Decision = Decision(verdict: Verdict, cycle: nat, includeReviewer: Option<bool>)
  datatype Task = Task(state: TaskState, resume: Option<TaskState>)
  datatype Flow = Flow(task: Task, dispatches: seq<Dispatch>, decisions: seq<Decision>, openFindings: bool)
  datatype Frontier = Frontier(cycle: nat, position: nat, kind: Kind, includeReviewer: bool, expected: Option<Role>)

  // ------------------------------------------------------------------ sequences

  const STANDARD_SEQUENCE: seq<Role> := [Lead, Analyst, Lead, Implementer, Qa, Reviewer, Lead]

  function EffectiveSequence(kind: Kind, withReviewer: bool): seq<Role> {
    if kind == ReworkKind then
      if withReviewer then [Lead, Implementer, Qa, Reviewer, Lead] else [Lead, Implementer, Qa, Lead]
    else STANDARD_SEQUENCE
  }

  function ReworkIncludeReviewer(d: Option<Decision>, openFindings: bool): bool {
    if d.Some? && d.value.includeReviewer.Some? then d.value.includeReviewer.value else openFindings
  }

  // ------------------------------------------------------------------ the frontier

  function MaxCycle(ds: seq<Dispatch>): nat {
    if ds == [] then 0
    else var m := MaxCycle(ds[..|ds|-1]); if ds[|ds|-1].cycle > m then ds[|ds|-1].cycle else m
  }

  /** The kind of the latest dispatch of cycle `c`. */
  function KindOfCycle(ds: seq<Dispatch>, c: nat): Kind {
    if ds == [] then StandardKind
    else if ds[|ds|-1].cycle == c then ds[|ds|-1].kind
    else KindOfCycle(ds[..|ds|-1], c)
  }

  function ConsumedPositions(ds: seq<Dispatch>, c: nat): set<nat> {
    set i | 0 <= i < |ds| && ds[i].cycle == c && ds[i].status == Consumed :: ds[i].position
  }

  /** The latest rework decision made in cycle `c`. */
  function OriginatingRework(decs: seq<Decision>, c: int): Option<Decision> {
    if decs == [] then None
    else
      var d := decs[|decs|-1];
      if d.verdict == ReworkVerdict && d.cycle == c then Some(d) else OriginatingRework(decs[..|decs|-1], c)
  }

  function FirstFree(consumed: set<nat>, from: nat, length: nat): nat
    requires from <= length
    decreases length - from
  {
    if from == length || from !in consumed then from else FirstFree(consumed, from + 1, length)
  }

  predicate ReworkPending(f: Flow) {
    f.decisions != [] && var d := f.decisions[|f.decisions|-1];
    d.verdict == ReworkVerdict && d.cycle == MaxCycle(f.dispatches)
  }

  function IncludeNow(f: Flow): bool {
    var c := MaxCycle(f.dispatches);
    KindOfCycle(f.dispatches, c) == StandardKind
    || ReworkIncludeReviewer(OriginatingRework(f.decisions, c - 1), f.openFindings)
  }

  function WorkflowFrontier(f: Flow): Frontier {
    if f.dispatches == [] then Frontier(1, 0, StandardKind, true, Some(Lead))
    else
      var c := MaxCycle(f.dispatches);
      if ReworkPending(f) then
        Frontier(c + 1, 0, ReworkKind,
                 ReworkIncludeReviewer(Some(f.decisions[|f.decisions|-1]), f.openFindings), Some(Lead))
      else
        var kind := KindOfCycle(f.dispatches, c);
        var order := EffectiveSequence(kind, IncludeNow(f));
        var p := FirstFree(ConsumedPositions(f.dispatches, c), 0, |order|);
        Frontier(c, p, kind, IncludeNow(f), if p < |order| then Some(order[p]) else None)
  }

  // ------------------------------------------------------------------ the state synchronisation

  /** `_state_sync_plan`: the ordered transitions one consumed dispatch drives. */
  function StateSyncPlan(d: Dispatch, verdict: Option<Verdict>, current: TaskState): seq<(TaskState, TaskState)> {
    StepTo(d, current) + LeadOutcome(d, verdict)
  }

  function StepTo(d: Dispatch, current: TaskState): seq<(TaskState, TaskState)> {
    match d.kind
    case StandardKind =>
      (match d.position
       case 0 => [(NewTask, Planning)]
       case 1 => [(Planning, Analyzing)]
       case 2 => [(Analyzing, LeadDecision)]
       case 3 => [(LeadDecision, Implementing)]
       case 4 => [(Implementing, Testing)]
       case 5 => [(Testing, Reviewing)]
       case 6 => [(Reviewing, FinalDecision)]
       case _ => [])
    case ReworkKind =>
      (match d.role
       case Implementer => [(Rework, Implementing)]
       case Qa => [(Implementing, Testing)]
       case Reviewer => [(Testing, Reviewing)]
       case Lead =>
         if d.position == 0 then []
         else if current == Reviewing then [(Reviewing, FinalDecision)]
         else if current == Testing then [(Testing, Reviewing), (Reviewing, FinalDecision)]
         else []
       case Analyst => [])
  }

  predicate IsFinalLead(d: Dispatch) {
    d.role == Lead && if d.kind == StandardKind then d.position == 6 else d.position > 0
  }

  function LeadOutcome(d: Dispatch, verdict: Option<Verdict>): seq<(TaskState, TaskState)> {
    if d.role != Lead then []
    else if d.kind == StandardKind && d.position == 0 && verdict == Some(ReworkVerdict) then [(Planning, Rework)]
    else if d.kind == StandardKind && d.position == 2 then
      if verdict == Some(ReworkVerdict) then [(LeadDecision, Rework)]
      else if verdict == Some(Cancel) then [(LeadDecision, Cancelled)]
      else []
    else if IsFinalLead(d) then
      if verdict == Some(Accept) then [(FinalDecision, Done)]
      else if verdict == Some(ReworkVerdict) then [(FinalDecision, Rework)]
      else if verdict == Some(Cancel) then [(FinalDecision, Cancelled)]
      else []
    else if d.kind == ReworkKind && d.position == 0 && verdict == Some(Cancel) then [(Rework, Cancelled)]
    else []
  }

  /** Applies a plan step by step; `None` is the raised InvalidTransition. */
  function Follow(task: Task, plan: seq<(TaskState, TaskState)>): Option<Task>
    decreases |plan|
  {
    if plan == [] then Some(task)
    else if task.state != plan[0].0 || !IsAllowed(task.state, plan[0].1, task.resume) then None
    else Follow(Task(plan[0].1, None), plan[1..])
  }

  /** A task parked in RECOVERING is first resumed. */
  function ResumeIfRecovering(task: Task): Option<Task> {
    if task.state != Recovering then Some(task)
    else if task.resume.None? || !IsAllowed(Recovering, task.resume.value, task.resume) then None
    else Some(Task(task.resume.value, None))
  }

  function StateSync(task: Task, d: Dispatch, verdict: Option<Verdict>): Option<Task> {
    var t := ResumeIfRecovering(task);
    if t.None? then None else Follow(t.value, StateSyncPlan(d, verdict, t.value.state))
  }

  // ------------------------------------------------------------------ commands

  /** `admitted`, `matches`, `authentic` and `wellFormed` stand for the checks that look only at
      data outside this model (active role run, spawn identity, event metadata, output schema). */
  datatype Command =
    | CreateDispatch(role: Role, position: nat, cycle: nat, kind: Kind, admitted: bool)
    | BindSpawnResult(index: nat, matches: bool)
    | ReceiveResult(index: nat, authentic: bool, wellFormed: bool, verdict: Verdict,
                    includeReviewer: Option<bool>, findingsAfter: bool)
    | MarkFailed(index: nat)
    | Recover
    | FindingsChange(open: bool)

  datatype Outcome = Applied | Refused | SyncRaised

  predicate IsActive(d: Dispatch) {
    d.status in {Pending, Running, RecoveryPending}
  }

  predicate Dispatchable(f: Flow) {
    && !IsTerminal(f.task.state) && !IsPause(f.task.state)
    && forall i :: 0 <= i < |f.dispatches| ==> !IsActive(f.dispatches[i])
  }

  function WithStatus(f: Flow, i: nat, st: DispatchStatus): Flow
    requires i < |f.dispatches|
  {
    f.(dispatches := f.dispatches[i := f.dispatches[i].(status := st)])
  }

  /** The row and decision effects of a consumed result, before the state sync. */
  function Consume(f: Flow, i: nat, verdict: Verdict, withReviewer: Option<bool>, findingsAfter: bool): Flow
    requires i < |f.dispatches|
  {
    var d := f.dispatches[i];
    WithStatus(f, i, Consumed).(
    decisions := if d.role == Lead then f.decisions + [Decision(verdict, d.cycle, withReviewer)] else f.decisions,
    openFindings := findingsAfter)
  }

  function RecoverStatus(d: Dispatch): DispatchStatus {
    if d.status == Pending && d.role != Implementer then FailedDispatch
    else if d.status == Pending || d.status == Running then RecoveryPending
    else d.status
  }

  function RecoverDispatches(ds: seq<Dispatch>): seq<Dispatch> {
    seq(|ds|, i requires 0 <= i < |ds| => ds[i].(status := RecoverStatus(ds[i])))
  }

  function RecoverTask(task: Task, conservative: bool): Task {
    if conservative then
      if IsTerminal(task.state) || IsPause(task.state) then task else Task(Recovering, Some(task.state))
    else if task.state == Recovering then
      if IsValidResumeTarget(task.resume) then Task(task.resume.value, None) else Task(Blocked, None)
    else task
  }

  predicate AnyRecoveryPending(ds: seq<Dispatch>) {
    exists i :: 0 <= i < |ds| && ds[i].status == RecoveryPending
  }

  function Step(f: Flow, cmd: Command): (Flow, Outcome) {
    match cmd
    case CreateDispatch(role, pos, cycle, kind, admitted) =>
      var fr := WorkflowFrontier(f);
      if admitted && Dispatchable(f) && fr.expected == Some(role) && (cycle, pos, kind) == (fr.cycle, fr.position, fr.kind)
      then (f.(dispatches := f.dispatches + [Dispatch(cycle, pos, kind, role, Pending)]), Applied)
      else (f, Refused)
    case BindSpawnResult(i, matches) =>
      if i < |f.dispatches| && f.dispatches[i].status in {Pending, RecoveryPending}
      then (WithStatus(f, i, if matches then Running else Rejected), Applied)
      else (f, Refused)
    case ReceiveResult(i, authentic, wellFormed, verdict, withReviewer, findingsAfter) =>
      if i >= |f.dispatches| || f.dispatches[i].status !in {Running, RecoveryPending}
         || !authentic || IsTerminal(f.task.state) then (f, Refused)
      else if !wellFormed then (WithStatus(f, i, Rejected), Applied)
      else
        var t := StateSync(f.task, f.dispatches[i], Some(verdict));
        if t.None? then (f, SyncRaised)
        else (Consume(f, i, verdict, withReviewer, findingsAfter).(task := t.value), Applied)
    case MarkFailed(i) =>
      if i < |f.dispatches| && f.dispatches[i].status in {Running, RecoveryPending}
      then (WithStatus(f, i, FailedDispatch), Applied)
      else (f, Refused)
    case Recover =>
      var ds := RecoverDispatches(f.dispatches);
      (f.(dispatches := ds, task := RecoverTask(f.task, AnyRecoveryPending(ds))), Applied)
    case FindingsChange(open) => (f.(openFindings := open), Applied)
  }

  function Run(f: Flow, cmds: seq<Command>): Flow
    decreases |cmds|
  {
    if cmds == [] then f else Run(Step(f, cmds[0]).0, cmds[1..])
  }

  const FRESH: Flow := Flow(Task(NewTask, None), [], [], false)

  // ------------------------------------------------------------------ the second view

  /** The state the task is in, seen through a recovery pause. */
  function LogicalState(t: Task): TaskState {
    if t.state == Recovering && t.resume.Some? then t.resume.value else t.state
  }

  /** The state that `k` consumed positions of a cycle and the last lead decision call for.
      `skipped` says that position 3 of a rework cycle was taken by the lead, not by the reviewer. */
  function StateAfter(kind: Kind, k: nat, skipped: bool, last: Option<Verdict>): TaskState {
    if kind == StandardKind then
      if k == 0 then NewTask else if k == 1 then Planning else if k == 2 then Analyzing
      else if k == 3 then (if last == Some(Cancel) then Cancelled else LeadDecision)
      else if k == 4 then Implementing else if k == 5 then Testing else if k == 6 then Reviewing
      else FinalState(last)
    else
      if k == 0 then Rework
      else if k == 1 then (if last == Some(Cancel) then Cancelled else Rework)
      else if k == 2 then Implementing else if k == 3 then Testing
      else if k == 4 && !skipped then Reviewing
      else FinalState(last)
  }

  function FinalState(last: Option<Verdict>): TaskState {
    match last
    case Some(Accept) => Done
    case Some(Cancel) => Cancelled
    case _ => FinalDecision
  }

  predicate LeadAtThree(ds: seq<Dispatch>, c: nat) {
    exists i :: 0 <= i < |ds| && ds[i].cycle == c && ds[i].status == Consumed && ds[i].position == 3 && ds[i].role == Lead
  }

  function LastVerdict(f: Flow): Option<Verdict> {
    if f.decisions == [] then None else Some(f.decisions[|f.decisions|-1].verdict)
  }

  /** The task state as one function of the dispatch and decision history. */
  function StateFromHistory(f: Flow): TaskState {
    var c := MaxCycle(f.dispatches);
    if ReworkPending(f) then Rework
    else StateAfter(KindOfCycle(f.dispatches, c), |ConsumedPositions(f.dispatches, c)|,
                    LeadAtThree(f.dispatches, c), LastVerdict(f))
  }

  // ------------------------------------------------------------------ invariant

  predicate RoleFits(d: Dispatch) {
    match d.kind
    case StandardKind => d.position < 7 && d.role == STANDARD_SEQUENCE[d.position]
    case ReworkKind =>
      && d.position < 5
      && ((d.position == 3 && d.role == Lead) || d.role == EffectiveSequence(ReworkKind, true)[d.position])
  }

  predicate WellShaped(ds: seq<Dispatch>) {
    forall i :: 0 <= i < |ds| ==>
      ds[i].cycle >= 1 && (ds[i].kind == StandardKind <==> ds[i].cycle == 1) && RoleFits(ds[i])
  }

  predicate Precedes(p: nat, k: nat) { p < k }

  lemma {:induction false} SizeUpTo(k: nat)
    ensures |set p: nat | p < k && Precedes(p, k)| == k
  {
    if k > 0 {
      var m := k - 1;
      SizeUpTo(m);
      assert (set p: nat | p < k && Precedes(p, k)) == (set p: nat | p < m && Precedes(p, m)) + {m};
    }
  }

  /** The positions before `k`. */
  function UpTo(k: nat): (s: set<nat>)
    ensures |s| == k
  {
    SizeUpTo(k);
    set p: nat | p < k && Precedes(p, k)
  }

  /** The consumed positions of every cycle form a prefix, and none is consumed twice. */
  ghost predicate ConsumedInOrder(ds: seq<Dispatch>) {
    && (forall c: nat :: ConsumedPositions(ds, c) == UpTo(|ConsumedPositions(ds, c)|))
    && (forall i, j | 0 <= i < j < |ds| && ds[i].status == Consumed && ds[j].status == Consumed ::
          ds[i].cycle == ds[j].cycle ==> ds[i].position != ds[j].position)
  }

  /** At most one dispatch is in flight, and it is for the first position not yet consumed. */
  ghost predicate ActiveAtFrontier(f: Flow) {
    var ds := f.dispatches;
    var c := MaxCycle(ds);
    && (forall i :: 0 <= i < |ds| && IsActive(ds[i]) ==>
                      && ds[i].cycle == c && ds[i].position == |ConsumedPositions(ds, c)| && !ReworkPending(f))
    && (forall i, j :: 0 <= i < j < |ds| ==> !(IsActive(ds[i]) && IsActive(ds[j])))
  }

  ghost predicate Agree(f: Flow) {
    && (f.task.state == Recovering ==> IsValidResumeTarget(f.task.resume))
    && LogicalState(f.task) == StateFromHistory(f)
  }

  ghost predicate Inv(f: Flow) {
    && WellShaped(f.dispatches) && ConsumedInOrder(f.dispatches) && ActiveAtFrontier(f) && Agree(f)
    && (f.dispatches == [] ==> f.decisions == [])
    && (forall i :: 0 <= i < |f.decisions| ==> f.decisions[i].cycle <= MaxCycle(f.dispatches))
  }

  // ------------------------------------------------------------------ facts about histories

  lemma {:induction false} MaxCycleBounds(ds: seq<Dispatch>)
    ensures forall i :: 0 <= i < |ds| ==> ds[i].cycle <= MaxCycle(ds)
    ensures ds != [] ==> exists i :: 0 <= i < |ds| && ds[i].cycle == MaxCycle(ds)
  {
    if ds != [] {
      var init := ds[..|ds|-1];
      MaxCycleBounds(init);
      assert forall i :: 0 <= i < |init| ==> init[i] == ds[i];
      if ds[|ds|-1].cycle > MaxCycle(init) || init == [] {
        assert ds[|ds|-1].cycle == MaxCycle(ds);
      }
    }
  }

  /** Same rows, statuses aside, and the same ones consumed. */
  predicate SameHistory(ds: seq<Dispatch>, es: seq<Dispatch>) {
    |ds| == |es| && forall i :: 0 <= i < |ds| ==>
      && es[i].(status := ds[i].status) == ds[i]
      && (es[i].status == Consumed <==> ds[i].status == Consumed)
  }

  lemma {:induction false} CyclesDependOnRowsOnly(ds: seq<Dispatch>, es: seq<Dispatch>, c: nat)
    requires |ds| == |es| && forall i :: 0 <= i < |ds| ==> es[i].cycle == ds[i].cycle && es[i].kind == ds[i].kind
    ensures MaxCycle(ds) == MaxCycle(es) && KindOfCycle(ds, c) == KindOfCycle(es, c)
  {
    if ds != [] {
      CyclesDependOnRowsOnly(ds[..|ds|-1], es[..|es|-1], c);
    }
  }

  lemma SameHistorySameView(f: Flow, g: Flow)
    requires SameHistory(f.dispatches, g.dispatches) && f.decisions == g.decisions
    ensures MaxCycle(f.dispatches) == MaxCycle(g.dispatches) && ReworkPending(f) == ReworkPending(g)
    ensures forall c: nat :: ConsumedPositions(f.dispatches, c) == ConsumedPositions(g.dispatches, c)
    ensures StateFromHistory(f) == StateFromHistory(g)
  {
    var ds, es := f.dispatches, g.dispatches;
    var c := MaxCycle(ds);
    CyclesDependOnRowsOnly(ds, es, c);
    forall c: nat ensures ConsumedPositions(ds, c) == ConsumedPositions(es, c) {
      assert forall i :: 0 <= i < |ds| ==> ds[i].position == es[i].position && ds[i].cycle == es[i].cycle;
    }
    if LeadAtThree(ds, c) {
      var i :| 0 <= i < |ds| && ds[i].cycle == c && ds[i].status == Consumed && ds[i].position == 3 && ds[i].role == Lead;
      assert es[i].role == Lead;
    }
    if LeadAtThree(es, c) {
      var i :| 0 <= i < |es| && es[i].cycle == c && es[i].status == Consumed && es[i].position == 3 && es[i].role == Lead;
      assert ds[i].role == Lead;
    }
  }

  /** A change of statuses that consumes nothing keeps the invariant, whatever it does to the task's pause. */
  lemma StatusChangeKeepsInv(f: Flow, g: Flow)
    requires Inv(f) && SameHistory(f.dispatches, g.dispatches) && f.decisions == g.decisions
    requires forall i :: 0 <= i < |f.dispatches| && IsActive(g.dispatches[i]) ==> IsActive(f.dispatches[i])
    requires LogicalState(g.task) == LogicalState(f.task)
    requires g.task.state == Recovering ==> IsValidResumeTarget(g.task.resume)
    ensures Inv(g)
  {
    SameHistorySameView(f, g);
    var ds, es := f.dispatches, g.dispatches;
    assert WellShaped(es) by {
      forall i | 0 <= i < |es| ensures es[i].cycle >= 1 && (es[i].kind == StandardKind <==> es[i].cycle == 1) && RoleFits(es[i]) {
        assert RoleFits(ds[i]) && ds[i].kind == es[i].kind && ds[i].role == es[i].role && ds[i].position == es[i].position;
      }
    }
    assert ConsumedInOrder(es) by {
      forall i, j | 0 <= i < j < |es| && es[i].status == Consumed && es[j].status == Consumed && es[i].cycle == es[j].cycle
        ensures es[i].position != es[j].position
      {
        assert ds[i].position == es[i].position && ds[j].position == es[j].position;
        assert ds[i].cycle == es[i].cycle && ds[j].cycle == es[j].cycle;
      }
    }
    assert ActiveAtFrontier(g) by {
      forall i | 0 <= i < |es| && IsActive(es[i])
        ensures es[i].cycle == MaxCycle(es) && es[i].position == |ConsumedPositions(es, MaxCycle(es))| && !ReworkPending(g)
      {
        assert ds[i].position == es[i].position && ds[i].cycle == es[i].cycle;
      }
    }
  }

  lemma {:induction false} FirstFreeOfPrefix(k: nat, from: nat, length: nat)
    requires from <= length && from <= k
    ensures FirstFree(UpTo(k), from, length) == if k < length then k else length
    decreases length - from
  {
    if from < length && from < k {
      FirstFreeOfPrefix(k, from + 1, length);
    }
  }

  /** The kind of a cycle is fixed by its number. */
  lemma {:induction false} KindByNumber(ds: seq<Dispatch>, c: nat)
    requires WellShaped(ds) && (c <= 1 || exists i :: 0 <= i < |ds| && ds[i].cycle == c)
    ensures KindOfCycle(ds, c) == if c <= 1 then StandardKind else ReworkKind
  {
    if ds != [] && ds[|ds|-1].cycle != c {
      var init := ds[..|ds|-1];
      assert forall i :: 0 <= i < |init| ==> init[i] == ds[i];
      if c > 1 {
        var i :| 0 <= i < |ds| && ds[i].cycle == c;
        assert init[i].cycle == c;
      }
      KindByNumber(init, c);
    }
  }

  /** Where the frontier stands: at the first unconsumed position of the current cycle. */
  lemma FrontierPosition(f: Flow)
    requires Inv(f) && f.dispatches != [] && !ReworkPending(f)
    ensures var c := MaxCycle(f.dispatches);
            var k := |ConsumedPositions(f.dispatches, c)|;
            var kind := if c <= 1 then StandardKind else ReworkKind;
            var n := |EffectiveSequence(kind, IncludeNow(f))|;
            && KindOfCycle(f.dispatches, c) == kind && c >= 1
            && WorkflowFrontier(f) ==
               Frontier(c, if k < n then k else n, kind, IncludeNow(f),
                        if k < n then Some(EffectiveSequence(kind, IncludeNow(f))[k]) else None)
  {
    var c := MaxCycle(f.dispatches);
    MaxCycleBounds(f.dispatches);
    KindByNumber(f.dispatches, c);
    FirstFreeOfPrefix(|ConsumedPositions(f.dispatches, c)|, 0,
                      |EffectiveSequence(KindOfCycle(f.dispatches, c), IncludeNow(f))|);
  }

  // ------------------------------------------------------------------ preservation

  lemma ConsumedAppend(ds: seq<Dispatch>, d: Dispatch, c: nat)
    requires d.status != Consumed
    ensures ConsumedPositions(ds + [d], c) == ConsumedPositions(ds, c)
    ensures LeadAtThree(ds + [d], c) == LeadAtThree(ds, c)
  {
    var es := ds + [d];
    assert forall i :: 0 <= i < |ds| ==> es[i] == ds[i];
    if LeadAtThree(ds, c) {
      var i :| 0 <= i < |ds| && ds[i].cycle == c && ds[i].status == Consumed && ds[i].position == 3 && ds[i].role == Lead;
      assert es[i].role == Lead;
    }
  }

  lemma AppendCycle(ds: seq<Dispatch>, d: Dispatch)
    ensures MaxCycle(ds + [d]) == if d.cycle > MaxCycle(ds) then d.cycle else MaxCycle(ds)
    ensures KindOfCycle(ds + [d], d.cycle) == d.kind
  {
    assert (ds + [d])[..|ds|] == ds;
  }

  lemma NothingConsumedAbove(ds: seq<Dispatch>, c: nat)
    requires c > MaxCycle(ds)
    ensures ConsumedPositions(ds, c) == {} && !LeadAtThree(ds, c)
  {
    MaxCycleBounds(ds);
  }

  /** Admission at the frontier: what the new row adds to both views. */
  lemma CreateView(f: Flow, d: Dispatch)
    requires Inv(f) && d.status == Pending
    requires var fr := WorkflowFrontier(f); fr.expected == Some(d.role) && (d.cycle, d.position, d.kind) == (fr.cycle, fr.position, fr.kind)
    ensures var g := f.(dispatches := f.dispatches + [d]);
            && RoleFits(d) && d.cycle >= 1 && (d.kind == StandardKind <==> d.cycle == 1)
            && MaxCycle(g.dispatches) == d.cycle >= MaxCycle(f.dispatches) && !ReworkPending(g)
            && d.position == |ConsumedPositions(f.dispatches, d.cycle)|
            && StateFromHistory(g) == StateFromHistory(f)
  {
    var ds := f.dispatches;
    var g := f.(dispatches := ds + [d]);
    AppendCycle(ds, d);
    MaxCycleBounds(ds);
    ConsumedAppend(ds, d, d.cycle);
    if ds == [] || ReworkPending(f) {
      NothingConsumedAbove(ds, d.cycle);
    } else {
      FrontierPosition(f);
    }
  }

  lemma CreateKeepsInv(f: Flow, d: Dispatch)
    requires Inv(f) && Dispatchable(f) && d.status == Pending
    requires var fr := WorkflowFrontier(f); fr.expected == Some(d.role) && (d.cycle, d.position, d.kind) == (fr.cycle, fr.position, fr.kind)
    ensures Inv(f.(dispatches := f.dispatches + [d]))
  {
    hide StateFromHistory, WorkflowFrontier, ConsumedPositions, RoleFits, ReworkPending;
    var ds := f.dispatches;
    var es := ds + [d];
    CreateView(f, d);
    forall m: nat ensures ConsumedPositions(es, m) == ConsumedPositions(ds, m) {
      ConsumedAppend(ds, d, m);
    }
  }

  lemma ConsumedUpdate(ds: seq<Dispatch>, i: nat, c: nat)
    requires i < |ds| && ds[i].status != Consumed
    ensures var es := ds[i := ds[i].(status := Consumed)];
            && ConsumedPositions(es, c) == ConsumedPositions(ds, c) + (if ds[i].cycle == c then {ds[i].position} else {})
            && (LeadAtThree(es, c) <==>
                  LeadAtThree(ds, c) || (ds[i].cycle == c && ds[i].position == 3 && ds[i].role == Lead))
  {
    var es := ds[i := ds[i].(status := Consumed)];
    assert es[i].position == ds[i].position && es[i].cycle == ds[i].cycle;
    forall p | p in ConsumedPositions(ds, c) ensures p in ConsumedPositions(es, c) {
      var j :| 0 <= j < |ds| && ds[j].cycle == c && ds[j].status == Consumed && ds[j].position == p;
      assert es[j] == ds[j];
    }
    forall p | p in ConsumedPositions(es, c)
      ensures p in ConsumedPositions(ds, c) || (ds[i].cycle == c && p == ds[i].position)
    {
      var j :| 0 <= j < |es| && es[j].cycle == c && es[j].status == Consumed && es[j].position == p;
      assert j != i ==> ds[j] == es[j];
    }
    if LeadAtThree(ds, c) {
      var j :| 0 <= j < |ds| && ds[j].cycle == c && ds[j].status == Consumed && ds[j].position == 3 && ds[j].role == Lead;
      assert es[j] == ds[j];
    }
    if LeadAtThree(es, c) {
      var j :| 0 <= j < |es| && es[j].cycle == c && es[j].status == Consumed && es[j].position == 3 && es[j].role == Lead;
      assert j != i ==> ds[j] == es[j];
    }
  }

  lemma LeadAtThreeNeedsIt(ds: seq<Dispatch>, c: nat)
    requires LeadAtThree(ds, c)
    ensures 3 in ConsumedPositions(ds, c)
  {
    var i :| 0 <= i < |ds| && ds[i].cycle == c && ds[i].status == Consumed && ds[i].position == 3 && ds[i].role == Lead;
    assert ds[i].position in ConsumedPositions(ds, c);
  }

  lemma {:induction false} FollowConcat(t: Task, p: seq<(TaskState, TaskState)>, q: seq<(TaskState, TaskState)>)
    ensures Follow(t, p + q) == match Follow(t, p) case None => None case Some(u) => Follow(u, q)
    decreases |p|
  {
    if p == [] {
      assert p + q == q;
    } else {
      assert (p + q)[0] == p[0] && (p + q)[1..] == p[1..] + q;
      FollowConcat(Task(p[0].1, None), p[1..], q);
    }
  }

  lemma FollowUpToTwo(t: Task, p: seq<(TaskState, TaskState)>)
    requires |p| <= 2
    ensures p == [] ==> Follow(t, p) == Some(t)
    requires p != [] ==> t.state == p[0].0 && IsAllowed(t.state, p[0].1, t.resume)
    requires |p| == 2 ==> p[0].1 == p[1].0 && IsAllowed(p[1].0, p[1].1, None)
    ensures Follow(t, p) == Some(if p == [] then t else Task(p[|p|-1].1, None))
  {
    if |p| == 2 {
      assert p == [p[0]] + [p[1]];
      FollowConcat(t, [p[0]], [p[1]]);
    }
  }

  lemma StepToLands(before: Task, d: Dispatch, skipped: bool, last: Option<Verdict>)
    requires RoleFits(d) && (skipped ==> d.position > 3)
    requires before.state == StateAfter(d.kind, d.position, skipped, last) && !IsTerminal(before.state)
    ensures var t := Follow(before, StepTo(d, before.state));
            t.Some? && t.value.state == StateAfter(d.kind, d.position + 1, skipped || (d.position == 3 && d.role == Lead), None)
  {
    hide Follow;
    FollowUpToTwo(before, StepTo(d, before.state));
  }

  lemma OutcomeLands(task: Task, d: Dispatch, verdict: Verdict, skipped: bool, last: Option<Verdict>)
    requires RoleFits(d) && (d.position == 3 && d.role == Lead ==> skipped) && (skipped ==> d.position >= 3)
    requires d.position == 3 && d.role != Lead ==> !skipped
    requires task.state == StateAfter(d.kind, d.position + 1, skipped, None)
    ensures var t := Follow(task, LeadOutcome(d, Some(verdict)));
            t.Some? && t.value.state == if d.role == Lead && verdict == ReworkVerdict then Rework
                                        else StateAfter(d.kind, d.position + 1, skipped, if d.role == Lead then Some(verdict) else last)
  {
    hide Follow;
    FollowUpToTwo(task, LeadOutcome(d, Some(verdict)));
  }

  /** The heart of the matter: from the state the history calls for, the plan of the dispatch at
      the frontier is legal step by step and ends in the state the longer history calls for. */
  lemma SyncFollowsHistory(before: Task, d: Dispatch, verdict: Verdict, skipped: bool, last: Option<Verdict>)
    requires RoleFits(d) && (skipped ==> d.position > 3)
    requires before.state == StateAfter(d.kind, d.position, skipped, last) && !IsTerminal(before.state)
    ensures var t := Follow(before, StateSyncPlan(d, Some(verdict), before.state));
            && t.Some?
            && t.value.state == if d.role == Lead && verdict == ReworkVerdict then Rework
                                else StateAfter(d.kind, d.position + 1, skipped || (d.position == 3 && d.role == Lead),
                                                if d.role == Lead then Some(verdict) else last)
  {
    hide Follow, StateAfter, StepTo, LeadOutcome;
    FollowConcat(before, StepTo(d, before.state), LeadOutcome(d, Some(verdict)));
    StepToLands(before, d, skipped, last);
    OutcomeLands(Follow(before, StepTo(d, before.state)).value, d, verdict,
                 skipped || (d.position == 3 && d.role == Lead), last);
  }

  lemma NextUpTo(k: nat)
    ensures UpTo(k) + {k} == UpTo(k + 1) && |UpTo(k + 1)| == k + 1
  {
  }

  lemma InConsumed(ds: seq<Dispatch>, o: nat)
    requires o < |ds| && ds[o].status == Consumed
    ensures ds[o].position in ConsumedPositions(ds, ds[o].cycle)
  {
  }

  lemma ConsumedSets(ds: seq<Dispatch>, i: nat, m: nat)
    requires i < |ds| && ds[i].status != Consumed && ConsumedInOrder(ds)
    requires ds[i].position == |ConsumedPositions(ds, ds[i].cycle)|
    ensures var es := ds[i := ds[i].(status := Consumed)];
            && ConsumedPositions(es, m) == UpTo(|ConsumedPositions(es, m)|)
            && (m == ds[i].cycle ==> |ConsumedPositions(es, m)| == ds[i].position + 1)
  {
    hide ConsumedPositions, LeadAtThree;
    ConsumedUpdate(ds, i, m);
    NextUpTo(ds[i].position);
    assert ConsumedPositions(ds, m) == UpTo(|ConsumedPositions(ds, m)|);
  }

  lemma ConsumedOnce(ds: seq<Dispatch>, i: nat, a: nat, b: nat)
    requires i < |ds| && ds[i].status != Consumed && ConsumedInOrder(ds)
    requires ds[i].position == |ConsumedPositions(ds, ds[i].cycle)|
    requires var es := ds[i := ds[i].(status := Consumed)];
             a < b < |ds| && es[a].status == Consumed && es[b].status == Consumed && es[a].cycle == es[b].cycle
    ensures ds[a].position != ds[b].position
  {
    hide ConsumedPositions;
    if a == i || b == i {
      InConsumed(ds, if a == i then b else a);
      assert ConsumedPositions(ds, ds[i].cycle) == UpTo(ds[i].position);
    }
  }

  /** What consuming the next position of a cycle does to the consumed sets. */
  lemma ConsumedRows(ds: seq<Dispatch>, i: nat)
    requires i < |ds| && ds[i].status != Consumed && ConsumedInOrder(ds)
    requires ds[i].position == |ConsumedPositions(ds, ds[i].cycle)|
    ensures var es := ds[i := ds[i].(status := Consumed)];
            && ConsumedInOrder(es)
            && |ConsumedPositions(es, ds[i].cycle)| == ds[i].position + 1
            && (LeadAtThree(ds, ds[i].cycle) ==> ds[i].position > 3)
  {
    hide LeadAtThree, ConsumedPositions;
    var es := ds[i := ds[i].(status := Consumed)];
    ConsumedSets(ds, i, ds[i].cycle);
    forall m: nat ensures ConsumedPositions(es, m) == UpTo(|ConsumedPositions(es, m)|) {
      ConsumedSets(ds, i, m);
    }
    if LeadAtThree(ds, ds[i].cycle) {
      LeadAtThreeNeedsIt(ds, ds[i].cycle);
      assert ConsumedPositions(ds, ds[i].cycle) == UpTo(ds[i].position);
    }
    forall a, b | 0 <= a < b < |es| && es[a].status == Consumed && es[b].status == Consumed && es[a].cycle == es[b].cycle
      ensures es[a].position != es[b].position
    {
      ConsumedOnce(ds, i, a, b);
    }
  }

  /** What consuming the dispatch in flight does to the history view. */
  lemma ConsumedView(f: Flow, i: nat, verdict: Verdict, withReviewer: Option<bool>, findingsAfter: bool)
    requires Inv(f) && i < |f.dispatches| && f.dispatches[i].status in {Running, RecoveryPending}
    ensures var g := Consume(f, i, verdict, withReviewer, findingsAfter);
            var d := f.dispatches[i];
            var c := MaxCycle(f.dispatches);
            && d.cycle == c == MaxCycle(g.dispatches) && d.position == |ConsumedPositions(f.dispatches, c)|
            && RoleFits(d) && KindOfCycle(g.dispatches, c) == d.kind == KindOfCycle(f.dispatches, c)
            && !ReworkPending(f) && (ReworkPending(g) <==> d.role == Lead && verdict == ReworkVerdict)
  {
    hide ConsumedPositions, LeadAtThree, StateFromHistory;
    var ds := f.dispatches;
    var g := Consume(f, i, verdict, withReviewer, findingsAfter);
    assert IsActive(ds[i]);
    CyclesDependOnRowsOnly(ds, g.dispatches, ds[i].cycle);
    KindByNumber(ds, ds[i].cycle);
  }

  /** A task parked by recovery resumes where the history says it was. */
  lemma ResumedState(f: Flow)
    requires Agree(f) && !IsTerminal(f.task.state)
    ensures var t := ResumeIfRecovering(f.task);
            t.Some? && t.value.state == StateFromHistory(f) && !IsTerminal(t.value.state)
  {
    if f.task.state == Recovering {
      assert IsAllowed(Recovering, f.task.resume.value, f.task.resume);
    }
  }

  /** The synchronisation of a consumed result never raises, and lands where the new history says. */
  lemma ConsumeSync(f: Flow, i: nat, verdict: Verdict, withReviewer: Option<bool>, findingsAfter: bool)
    requires Inv(f) && i < |f.dispatches| && f.dispatches[i].status in {Running, RecoveryPending} && !IsTerminal(f.task.state)
    ensures var t := StateSync(f.task, f.dispatches[i], Some(verdict));
            t.Some? && t.value.state == StateFromHistory(Consume(f, i, verdict, withReviewer, findingsAfter)) != Recovering
  {
    hide WellShaped, ConsumedInOrder, ActiveAtFrontier, Follow, StateSyncPlan, ConsumedPositions, ReworkPending, LeadAtThree,
         MaxCycle, ResumeIfRecovering, RoleFits, KindOfCycle, Agree;
    var d := f.dispatches[i];
    var ds := f.dispatches;
    ConsumedView(f, i, verdict, withReviewer, findingsAfter);
    ConsumedRows(ds, i);
    ConsumedUpdate(ds, i, d.cycle);
    ResumedState(f);
    SyncFollowsHistory(ResumeIfRecovering(f.task).value, d, verdict, LeadAtThree(ds, d.cycle), LastVerdict(f));
  }

  lemma ConsumeKeepsInv(f: Flow, i: nat, verdict: Verdict, withReviewer: Option<bool>, findingsAfter: bool)
    requires Inv(f) && i < |f.dispatches| && f.dispatches[i].status in {Running, RecoveryPending} && !IsTerminal(f.task.state)
    ensures var t := StateSync(f.task, f.dispatches[i], Some(verdict));
            t.Some? && Inv(Consume(f, i, verdict, withReviewer, findingsAfter).(task := t.value))
  {
    hide StateSync, StateFromHistory, KindOfCycle, LeadAtThree, ReworkPending, ConsumedInOrder, ConsumedPositions;
    ConsumeSync(f, i, verdict, withReviewer, findingsAfter);
    ConsumedView(f, i, verdict, withReviewer, findingsAfter);
    ConsumedRows(f.dispatches, i);
    var h := Consume(f, i, verdict, withReviewer, findingsAfter);
    var g := h.(task := StateSync(f.task, f.dispatches[i], Some(verdict)).value);
    TaskIsNoHistory(h, g.task);
    assert WellShaped(g.dispatches);
    assert ActiveAtFrontier(g);
    assert Agree(g);
  }

  /** The history view does not read the task. */
  lemma TaskIsNoHistory(f: Flow, task: Task)
    ensures StateFromHistory(f.(task := task)) == StateFromHistory(f)
    ensures ReworkPending(f.(task := task)) == ReworkPending(f)
  {
  }

  lemma StatusOnlyStep(f: Flow, cmd: Command)
    requires Inv(f) && (cmd.BindSpawnResult? || cmd.MarkFailed? || cmd.FindingsChange? || cmd.Recover?
                        || (cmd.ReceiveResult? && !cmd.wellFormed))
    ensures Inv(Step(f, cmd).0)
  {
    hide WorkflowFrontier, StateFromHistory, ConsumedInOrder, ActiveAtFrontier, WellShaped, StateSync;
    StateIsOrdinary(f);
    StatusChangeKeepsInv(f, Step(f, cmd).0);
  }

  /** The history never calls for a pause. */
  lemma StateIsOrdinary(f: Flow)
    ensures !IsPause(StateFromHistory(f))
  {
    hide KindOfCycle, ConsumedPositions, LeadAtThree, LastVerdict, ReworkPending;
  }

  /** Every command keeps the two views together, and the synchronisation of a consumed result never raises. */
  lemma StepKeepsInv(f: Flow, cmd: Command)
    requires Inv(f)
    ensures Inv(Step(f, cmd).0) && Step(f, cmd).1 != SyncRaised
  {
    hide WorkflowFrontier, StateFromHistory, ConsumedInOrder, ActiveAtFrontier, WellShaped, StateSync, Agree, Consume, Dispatchable;
    match cmd
    case CreateDispatch(role, pos, cycle, kind, admitted) =>
      if Step(f, cmd).1 == Applied {
        CreateKeepsInv(f, Dispatch(cycle, pos, kind, role, Pending));
      }
    case ReceiveResult(i, authentic, wellFormed, verdict, withReviewer, findingsAfter) =>
      if !wellFormed {
        StatusOnlyStep(f, cmd);
      } else if i < |f.dispatches| && f.dispatches[i].status in {Running, RecoveryPending} && !IsTerminal(f.task.state) {
        ConsumeKeepsInv(f, i, verdict, withReviewer, findingsAfter);
      }
    case _ => StatusOnlyStep(f, cmd);
  }

  lemma FreshInv()
    ensures Inv(FRESH)
  {
    assert forall c: nat :: ConsumedPositions([], c) == {};
  }

  lemma {:induction false} RunKeepsInv(f: Flow, cmds: seq<Command>)
    requires Inv(f)
    ensures Inv(Run(f, cmds))
    decreases |cmds|
  {
    hide Inv, Step;
    if cmds != [] {
      StepKeepsInv(f, cmds[0]);
      RunKeepsInv(Step(f, cmds[0]).0, cmds[1..]);
    }
  }

  /** Main theorem.  In every run from a fresh task the task state, seen through a recovery pause, is the
      function `StateFromHistory` of the dispatch and decision history, and no next command can make the
      synchronisation raise. */
  lemma ViewsNeverDiverge(cmds: seq<Command>)
    ensures var f := Run(FRESH, cmds);
            LogicalState(f.task) == StateFromHistory(f) && forall cmd :: Step(f, cmd).1 != SyncRaised
  {
    hide Step, StateFromHistory, ConsumedPositions, WellShaped, Run;
    FreshInv();
    RunKeepsInv(FRESH, cmds);
    var f := Run(FRESH, cmds);
    forall cmd ensures Step(f, cmd).1 != SyncRaised {
      StepKeepsInv(f, cmd);
    }
  }

  /** In every run the consumed positions of each cycle are exactly 0..k-1, each consumed once, and at most
      one dispatch is in flight. */
  lemma ConsumedExactlyOnce(cmds: seq<Command>)
    ensures var f := Run(FRESH, cmds);
            && (forall c: nat, p: nat :: p in ConsumedPositions(f.dispatches, c) <==> p < |ConsumedPositions(f.dispatches, c)|)
            && (forall i, j | 0 <= i < j < |f.dispatches| && f.dispatches[i].status == Consumed && f.dispatches[j].status == Consumed ::
                  f.dispatches[i].cycle == f.dispatches[j].cycle ==> f.dispatches[i].position != f.dispatches[j].position)
            && (forall i, j | 0 <= i < j < |f.dispatches| :: !(IsActive(f.dispatches[i]) && IsActive(f.dispatches[j])))
  {
    hide Step, ConsumedPositions, WellShaped, Run;
    FreshInv();
    RunKeepsInv(FRESH, cmds);
    var ds := Run(FRESH, cmds).dispatches;
    forall c: nat, p: nat ensures p in ConsumedPositions(ds, c) <==> p < |ConsumedPositions(ds, c)| {
      assert ConsumedPositions(ds, c) == UpTo(|ConsumedPositions(ds, c)|);
    }
  }

  // ------------------------------------------------------------------ progress and stalls

  /** The three commands that carry one dispatch from admission to consumption. */
  function OneDispatch(f: Flow, verdict: Verdict, withReviewer: Option<bool>, findingsAfter: bool): seq<Command>
    requires WorkflowFrontier(f).expected.Some?
  {
    var fr := WorkflowFrontier(f);
    [CreateDispatch(fr.expected.value, fr.position, fr.cycle, fr.kind, true), BindSpawnResult(|f.dispatches|, true),
     ReceiveResult(|f.dispatches|, true, true, verdict, withReviewer, findingsAfter)]
  }

  lemma RunThree(f: Flow, a: Command, b: Command, c: Command)
    ensures Run(f, [a, b, c]) == Step(Step(Step(f, a).0, b).0, c).0
  {
    hide Step;
    var g := Step(f, a).0;
    assert [a, b, c][1..] == [b, c] && [b, c][1..] == [c];
    assert Run(g, [b, c]) == Run(Step(g, b).0, [c]);
    assert [c][1..] == [];
    assert Run(Step(g, b).0, [c]) == Run(Step(Step(g, b).0, c).0, []);
  }

  /** Whenever the frontier names a role, that role's dispatch can be carried through, and it is recorded
      at exactly the frontier position. */
  lemma Progress(f: Flow, verdict: Verdict, withReviewer: Option<bool>, findingsAfter: bool)
    requires Inv(f) && Dispatchable(f) && WorkflowFrontier(f).expected.Some?
    ensures var fr := WorkflowFrontier(f);
            var d := Dispatch(fr.cycle, fr.position, fr.kind, fr.expected.value, Consumed);
            var g := Run(f, OneDispatch(f, verdict, withReviewer, findingsAfter));
            && Inv(g) && g.dispatches == f.dispatches + [d] && g.openFindings == findingsAfter
            && g.decisions == f.decisions + (if d.role == Lead then [Decision(verdict, d.cycle, withReviewer)] else [])
            && MaxCycle(g.dispatches) == d.cycle && |ConsumedPositions(g.dispatches, d.cycle)| == d.position + 1
            && (ReworkPending(g) <==> d.role == Lead && verdict == ReworkVerdict)
            && (forall i :: 0 <= i < |g.dispatches| ==> !IsActive(g.dispatches[i]))
            && g.task.state == StateFromHistory(g)
  {
    hide WorkflowFrontier, StateFromHistory, ConsumedInOrder, ConsumedPositions, WellShaped, ReworkPending, StateSync, MaxCycle;
    var fr := WorkflowFrontier(f);
    var n := |f.dispatches|;
    var d := Dispatch(fr.cycle, fr.position, fr.kind, fr.expected.value, Pending);
    var f1 := f.(dispatches := f.dispatches + [d]);
    var f2 := WithStatus(f1, n, Running);
    CreateKeepsInv(f, d);
    CreateView(f, d);
    StatusOnlyStep(f1, BindSpawnResult(n, true));
    SameHistorySameView(f1, f2);
    ConsumedAppend(f.dispatches, d, d.cycle);
    ConsumedView(f2, n, verdict, withReviewer, findingsAfter);
    ConsumedRows(f2.dispatches, n);
    ConsumeSync(f2, n, verdict, withReviewer, findingsAfter);
    ConsumeKeepsInv(f2, n, verdict, withReviewer, findingsAfter);
    var cmds := OneDispatch(f, verdict, withReviewer, findingsAfter);
    RunThree(f, cmds[0], cmds[1], cmds[2]);
    var h := Consume(f2, n, verdict, withReviewer, findingsAfter);
    TaskIsNoHistory(h, StateSync(f2.task, f2.dispatches[n], Some(verdict)).value);
  }

  lemma FreshView(f: Flow)
    requires Inv(f) && f.dispatches == []
    ensures StateFromHistory(f) == NewTask
  {
    assert ConsumedPositions(f.dispatches, 0) == {};
  }

  /** Exactly when an open, idle task has no next role: its lead asked for the owner gate in the final
      decision, or the reviewer of a rework cycle has reported and the reviewer toggle now reads "skip". */
  lemma StallExactly(f: Flow)
    requires Inv(f) && Dispatchable(f)
    ensures var c := MaxCycle(f.dispatches);
            var inRework := KindOfCycle(f.dispatches, c) == ReworkKind;
            WorkflowFrontier(f).expected == None <==>
              || (f.task.state == FinalDecision && !(inRework && |ConsumedPositions(f.dispatches, c)| == 4 && IncludeNow(f)))
              || (f.task.state == Reviewing && inRework && !IncludeNow(f))
  {
    hide ConsumedInOrder, ActiveAtFrontier, WellShaped, ConsumedPositions, KindOfCycle, MaxCycle, LeadAtThree, IncludeNow, ReworkPending, OriginatingRework;
    var c := MaxCycle(f.dispatches);
    var k := |ConsumedPositions(f.dispatches, c)|;
    if f.dispatches != [] && !ReworkPending(f) {
      FrontierPosition(f);
    } else if f.dispatches == [] {
      FreshView(f);
    }
  }

  // ------------------------------------------------------------------ explicit reviewer toggles

  predicate Explicit(cmd: Command) {
    cmd.ReceiveResult? && cmd.verdict == ReworkVerdict ==> cmd.includeReviewer.Some?
  }

  /** Every rework cycle was opened by a decision that fixes its reviewer, and its rows obey that decision. */
  predicate RowSettled(d: Dispatch, decs: seq<Decision>) {
    d.kind == ReworkKind ==>
      var o := OriginatingRework(decs, d.cycle - 1);
      && o.Some? && o.value.includeReviewer.Some?
      && (d.position == 3 ==> (d.role == Reviewer <==> o.value.includeReviewer.value))
      && (d.position == 4 ==> o.value.includeReviewer.value)
  }

  predicate Settled(f: Flow) {
    && (forall i :: 0 <= i < |f.dispatches| ==> RowSettled(f.dispatches[i], f.decisions))
    && (forall i | 0 <= i < |f.decisions| && f.decisions[i].verdict == ReworkVerdict :: f.decisions[i].includeReviewer.Some?)
  }

  lemma CreateKeepsSettled(f: Flow, d: Dispatch)
    requires Inv(f) && Settled(f)
    requires var fr := WorkflowFrontier(f); fr.expected == Some(d.role) && (d.cycle, d.position, d.kind) == (fr.cycle, fr.position, fr.kind)
    ensures RowSettled(d, f.decisions)
  {
    hide ConsumedPositions, StateFromHistory, ConsumedInOrder, ActiveAtFrontier;
    var c := MaxCycle(f.dispatches);
    if f.dispatches != [] && !ReworkPending(f) && d.kind == ReworkKind {
      FrontierPosition(f);
      MaxCycleBounds(f.dispatches);
      var i :| 0 <= i < |f.dispatches| && f.dispatches[i].cycle == c;
      assert RowSettled(f.dispatches[i], f.decisions);
    }
  }

  lemma ConsumeKeepsSettled(f: Flow, i: nat, verdict: Verdict, withReviewer: Option<bool>, findingsAfter: bool)
    requires Inv(f) && Settled(f) && i < |f.dispatches| && f.dispatches[i].status in {Running, RecoveryPending}
    requires verdict == ReworkVerdict ==> withReviewer.Some?
    ensures Settled(Consume(f, i, verdict, withReviewer, findingsAfter))
  {
    hide ConsumedPositions, StateFromHistory, ConsumedInOrder, WellShaped;
    var g := Consume(f, i, verdict, withReviewer, findingsAfter);
    assert IsActive(f.dispatches[i]);
    MaxCycleBounds(f.dispatches);
    if g.decisions != f.decisions {
      assert g.decisions[..|g.decisions|-1] == f.decisions;
    }
    forall j | 0 <= j < |g.dispatches| ensures RowSettled(g.dispatches[j], g.decisions) {
      assert RowSettled(f.dispatches[j], f.decisions);
    }
  }

  lemma StepKeepsSettled(f: Flow, cmd: Command)
    requires Inv(f) && Settled(f) && Explicit(cmd)
    ensures Settled(Step(f, cmd).0)
  {
    hide WorkflowFrontier, StateFromHistory, ConsumedInOrder, ActiveAtFrontier, WellShaped, StateSync, Agree, Consume, Dispatchable, OriginatingRework;
    match cmd
    case CreateDispatch(role, pos, cycle, kind, admitted) =>
      if Step(f, cmd).1 == Applied {
        CreateKeepsSettled(f, Dispatch(cycle, pos, kind, role, Pending));
      }
    case ReceiveResult(i, authentic, wellFormed, verdict, withReviewer, findingsAfter) =>
      if i < |f.dispatches| && f.dispatches[i].status in {Running, RecoveryPending} && !IsTerminal(f.task.state) {
        ConsumeKeepsSettled(f, i, verdict, withReviewer, findingsAfter);
        StatusKeepsSettled(f, WithStatus(f, i, Rejected));
      }
    case _ => StatusKeepsSettled(f, Step(f, cmd).0);
  }

  lemma StatusKeepsSettled(f: Flow, g: Flow)
    requires Settled(f) && f.decisions == g.decisions && |f.dispatches| == |g.dispatches|
    requires forall i :: 0 <= i < |f.dispatches| ==> g.dispatches[i].(status := f.dispatches[i].status) == f.dispatches[i]
    ensures Settled(g)
  {
    forall i | 0 <= i < |g.dispatches| ensures RowSettled(g.dispatches[i], g.decisions) {
      assert RowSettled(f.dispatches[i], f.decisions);
    }
  }

  lemma {:induction false} RunKeepsSettled(f: Flow, cmds: seq<Command>)
    requires Inv(f) && Settled(f) && forall i :: 0 <= i < |cmds| ==> Explicit(cmds[i])
    ensures Inv(Run(f, cmds)) && Settled(Run(f, cmds))
    decreases |cmds|
  {
    hide Inv, Step, Settled;
    if cmds != [] {
      StepKeepsInv(f, cmds[0]);
      StepKeepsSettled(f, cmds[0]);
      RunKeepsSettled(Step(f, cmds[0]).0, cmds[1..]);
    }
  }

  lemma PositionThree(f: Flow, i: nat)
    requires WellShaped(f.dispatches) && Settled(f) && i < |f.dispatches| && f.dispatches[i].position == 3
    requires f.dispatches[i].cycle == MaxCycle(f.dispatches) && f.dispatches[i].kind == ReworkKind
    requires KindOfCycle(f.dispatches, MaxCycle(f.dispatches)) == ReworkKind
    ensures f.dispatches[i].role == (if IncludeNow(f) then Reviewer else Lead)
  {
    hide OriginatingRework, KindOfCycle, MaxCycle;
    assert RowSettled(f.dispatches[i], f.decisions) && RoleFits(f.dispatches[i]);
  }

  /** In a settled history the reviewer has reported in a rework cycle exactly when that cycle includes one. */
  lemma ReviewerAsDecided(f: Flow)
    requires Inv(f) && Settled(f) && f.dispatches != []
    requires KindOfCycle(f.dispatches, MaxCycle(f.dispatches)) == ReworkKind
    requires |ConsumedPositions(f.dispatches, MaxCycle(f.dispatches))| >= 4
    ensures LeadAtThree(f.dispatches, MaxCycle(f.dispatches)) == !IncludeNow(f)
  {
    hide StateFromHistory, ActiveAtFrontier, IncludeNow, Settled, RoleFits, KindOfCycle, MaxCycle, Agree;
    var ds := f.dispatches;
    var c := MaxCycle(ds);
    MaxCycleBounds(ds);
    KindByNumber(ds, c);
    assert ConsumedPositions(ds, c) == UpTo(|ConsumedPositions(ds, c)|);
    assert 3 in ConsumedPositions(ds, c);
    var i :| 0 <= i < |ds| && ds[i].cycle == c && ds[i].status == Consumed && ds[i].position == 3;
    PositionThree(f, i);
    if LeadAtThree(ds, c) {
      var j :| 0 <= j < |ds| && ds[j].cycle == c && ds[j].status == Consumed && ds[j].position == 3 && ds[j].role == Lead;
      PositionThree(f, j);
    }
  }

  lemma FreshSettled()
    ensures Settled(FRESH)
  {
  }

  /** With explicit toggles the engine never loses its next role: an open, idle task has none only while
      its final decision waits at the owner gate. */
  lemma ExplicitTogglesNeverStall(cmds: seq<Command>)
    requires forall i :: 0 <= i < |cmds| ==> Explicit(cmds[i])
    requires Dispatchable(Run(FRESH, cmds))
    ensures var f := Run(FRESH, cmds);
            WorkflowFrontier(f).expected == None <==> f.task.state == FinalDecision
  {
    hide Run, ConsumedInOrder, ActiveAtFrontier, WellShaped, ConsumedPositions, KindOfCycle, MaxCycle, LeadAtThree, IncludeNow,
         ReworkPending, OriginatingRework, Settled, WorkflowFrontier;
    FreshInv();
    FreshSettled();
    RunKeepsSettled(FRESH, cmds);
    var f := Run(FRESH, cmds);
    var c := MaxCycle(f.dispatches);
    StallExactly(f);
    if f.dispatches == [] {
      FreshView(f);
    } else if KindOfCycle(f.dispatches, c) == ReworkKind && |ConsumedPositions(f.dispatches, c)| >= 4 {
      ReviewerAsDecided(f);
    }
  }

  // ------------------------------------------------------------------ the default toggle

  lemma {:induction false} RunConcat(f: Flow, a: seq<Command>, b: seq<Command>)
    ensures Run(f, a + b) == Run(Run(f, a), b)
    decreases |a|
  {
    hide Step;
    if a == [] {
      assert a + b == b;
    } else {
      assert (a + b)[0] == a[0] && (a + b)[1..] == a[1..] + b;
      RunConcat(Step(f, a[0]).0, a[1..], b);
    }
  }

  lemma AppendedLead(ds: seq<Dispatch>, d: Dispatch, c: nat)
    ensures LeadAtThree(ds + [d], c) ==> LeadAtThree(ds, c) || (d.position == 3 && d.role == Lead)
  {
    var es := ds + [d];
    assert forall i :: 0 <= i < |ds| ==> es[i] == ds[i];
  }

  predicate MidRework(f: Flow, k: nat) {
    && f.dispatches != [] && !ReworkPending(f) && MaxCycle(f.dispatches) >= 2
    && |ConsumedPositions(f.dispatches, MaxCycle(f.dispatches))| == k
    && !LeadAtThree(f.dispatches, MaxCycle(f.dispatches))
    && Dispatchable(f)
  }

  /** One worker of a rework cycle with a reviewer reports. */
  lemma ReworkAdvances(f: Flow, k: nat, findingsAfter: bool) returns (cmds: seq<Command>)
    requires Inv(f) && MidRework(f, k) && 1 <= k <= 3 && IncludeNow(f)
    ensures var g := Run(f, cmds);
            && Inv(g) && MidRework(g, k + 1) && g.decisions == f.decisions && g.openFindings == findingsAfter
            && MaxCycle(g.dispatches) == MaxCycle(f.dispatches)
            && g.task.state == StateAfter(ReworkKind, k + 1, false, LastVerdict(g))
  {
    hide ConsumedInOrder, ActiveAtFrontier, WellShaped, ConsumedPositions, KindOfCycle, MaxCycle, IncludeNow, ReworkPending,
         OriginatingRework, Step, Run, Agree;
    FrontierPosition(f);
    cmds := OneDispatch(f, Accept, None, findingsAfter);
    Progress(f, Accept, None, findingsAfter);
    var g := Run(f, cmds);
    FrontierPosition(g);
    AppendedLead(f.dispatches, g.dispatches[|f.dispatches|], MaxCycle(g.dispatches));
  }

  /** The spec gate asks for rework without fixing the reviewer, and the rework lead starts the cycle. */
  lemma ReworkOpens() returns (cmds: seq<Command>)
    ensures var f := Run(FRESH, cmds);
            && Inv(f) && MidRework(f, 1) && f.openFindings && MaxCycle(f.dispatches) == 2
            && f.decisions == [Decision(ReworkVerdict, 1, None), Decision(Accept, 2, None)]
  {
    hide ConsumedInOrder, ActiveAtFrontier, WellShaped, ConsumedPositions, KindOfCycle, MaxCycle, Step, Run, Agree;
    FreshInv();
    var a := OneDispatch(FRESH, ReworkVerdict, None, true);
    Progress(FRESH, ReworkVerdict, None, true);
    var g := Run(FRESH, a);
    assert g.task.state == Rework;
    var b := OneDispatch(g, Accept, None, true);
    Progress(g, Accept, None, true);
    cmds := a + b;
    RunConcat(FRESH, a, b);
    FrontierPosition(Run(FRESH, cmds));
  }

  /** With the toggle left to the open findings, a reachable task can stall: its reviewer reports and
      clears the findings, the cycle shrinks by one position, and no role is next although the task
      still waits in REVIEWING for its final decision. */
  lemma DefaultToggleStalls() returns (cmds: seq<Command>)
    ensures var f := Run(FRESH, cmds);
            Dispatchable(f) && f.task.state == Reviewing && WorkflowFrontier(f).expected == None
  {
    hide ConsumedInOrder, ActiveAtFrontier, WellShaped, ConsumedPositions, KindOfCycle, MaxCycle, Step, Run, Agree, WorkflowFrontier, LeadAtThree;
    var a := ReworkOpens();
    var f1 := Run(FRESH, a);
    OriginDecides(f1);
    var b := ReworkAdvances(f1, 1, true);
    var f2 := Run(f1, b);
    OriginDecides(f2);
    var c := ReworkAdvances(f2, 2, true);
    var f3 := Run(f2, c);
    OriginDecides(f3);
    var d := ReworkAdvances(f3, 3, false);
    var f4 := Run(f3, d);
    OriginDecides(f4);
    StallExactly(f4);
    cmds := a + b + c + d;
    RunConcat(FRESH, a, b);
    RunConcat(FRESH, a + b, c);
    RunConcat(FRESH, a + b + c, d);
  }

  lemma OriginDecides(f: Flow)
    requires Inv(f) && f.dispatches != [] && MaxCycle(f.dispatches) == 2
    requires f.decisions == [Decision(ReworkVerdict, 1, None), Decision(Accept, 2, None)]
    ensures KindOfCycle(f.dispatches, 2) == ReworkKind && IncludeNow(f) == f.openFindings && !ReworkPending(f)
  {
    hide ConsumedInOrder, ActiveAtFrontier, ConsumedPositions, Agree;
    MaxCycleBounds(f.dispatches);
    KindByNumber(f.dispatches, 2);
    assert f.decisions[|f.decisions|-1] == Decision(Accept, 2, None);
    assert f.decisions[..1] == [Decision(ReworkVerdict, 1, None)];
    assert OriginatingRework(f.decisions[..1], 1) == Some(f.decisions[0]);
    assert OriginatingRework(f.decisions, 1) == Some(f.decisions[0]);
  }
}
