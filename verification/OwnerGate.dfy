// Approvals, challenges, callbacks and parked tasks
module OwnerGate {
  /*
   The owner gate: approvals and the tasks parked for them (argent_core/core.py, argent_core/store.py), the
   single-use challenges (argent_core/approval_core.py) and the callback processor with its update log and cursor
   (argent_core/approval_processor.py).

   Every step is one transaction at an arbitrary clock reading.  A challenge is identified by its token (the
   token hash is injective), and a binding is the injective digest of task, action and scope.
   */
  import opened Wrappers
  import opened StateMachine

  datatype Task = Task(state: TaskState, resume: Option<TaskState>)

  datatype Binding = Binding(task: nat, action: nat, scope: nat)
  datatype ApprovalStatus = PendingApproval | Approved | RejectedApproval | Consumed | ExpiredApproval
  datatype Approval = Approval(gate: Binding, binding: Binding, status: ApprovalStatus, expiresAt: int, execution: Option<nat>)

  datatype ChallengeStatus = Issued | ConsumedApproved | ConsumedRejected | ExpiredChallenge | Invalidated
  datatype Challenge = Challenge(approval: nat, task: nat, binding: Binding, status: ChallengeStatus,
                                 createdAt: int, expiresAt: int, consumedUpdate: Option<nat>)

  datatype Outcome =
    | MalformedOutcome | WrongChat | SpoofedSender | DuplicateUpdate | StaleUpdate | UnknownChallenge | UsedToken | ExpiredOutcome
    | StaleMessage | GateChanged | GateDecided | ApprovedOutcome | RejectedOutcome | Details | ErrorOutcome

  datatype LogCode =
    | MalformedCode | WrongChatCode | SpoofedSenderCode | StaleUpdateCode | UnknownTokenCode | UsedTokenCode | ExpiredTokenCode
    | StaleMessageCode | BindingMismatchCode | ApprovalNotPendingCode | ExpiredApprovalCode | ApprovedCode | RejectedCode

  datatype LogRow = LogRow(decision: Option<bool>, challenge: Option<nat>, approval: Option<nat>, code: LogCode)

  datatype Store = Store(tasks: map<nat, Task>, approvals: map<nat, Approval>, challenges: map<nat, Challenge>,
                         executions: map<nat, nat>, log: map<nat, LogRow>, cursor: nat)

  const MAX_INT: nat := 0x7FFF_FFFF_FFFF_FFFF
  const CHALLENGE_TTL_SECONDS := 3600
  const FUTURE_SKEW_BOUND := 300

  // ------------------------------------------------------------------ approvals

  predicate IsOpen(a: Approval) {
    a.status in {PendingApproval, Approved}
  }

  predicate IsParked(s: Store, task: nat) {
    task in s.tasks && s.tasks[task].state == OwnerApprovalRequired
  }

  function SetApproval(s: Store, id: nat, a: Approval): Store {
    s.(approvals := s.approvals[id := a])
  }

  function SetTask(s: Store, id: nat, t: Task): Store {
    s.(tasks := s.tasks[id := t])
  }

  /** `_expire_and_release`: the task is released whether or not the approval could still be marked expired. */
  function ExpireAndRelease(s: Store, id: nat, now: int): Store {
    if id !in s.approvals then s
    else
      var a := s.approvals[id];
      var t := if IsOpen(a) && a.expiresAt <= now then SetApproval(s, id, a.(status := ExpiredApproval)) else s;
      if !IsParked(s, a.gate.task) then t
      else
        var resume := s.tasks[a.gate.task].resume;
        SetTask(t, a.gate.task, Task(if IsValidResumeTarget(resume) then resume.value else Blocked, None))
  }

  /** A rejected gate leaves its parked task BLOCKED. */
  function BlockIfParked(s: Store, task: nat): Store {
    if IsParked(s, task) then SetTask(s, task, Task(Blocked, None)) else s
  }

  predicate CanApprove(s: Store, id: nat, now: int) {
    id in s.approvals && s.approvals[id].status == PendingApproval && s.approvals[id].expiresAt > now
  }

  function MarkApproved(s: Store, id: nat): Store
    requires id in s.approvals
  {
    SetApproval(s, id, s.approvals[id].(status := Approved))
  }

  predicate CanReject(s: Store, id: nat) {
    id in s.approvals && s.approvals[id].status == PendingApproval
  }

  function MarkRejected(s: Store, id: nat): Store
    requires id in s.approvals
  {
    BlockIfParked(SetApproval(s, id, s.approvals[id].(status := RejectedApproval)), s.approvals[id].gate.task)
  }

  /** `execute_approved` once its checks have passed: consume with an execution record, then release the task. */
  function ConsumeWithExecution(s: Store, id: nat, execution: nat): Store
    requires id in s.approvals
  {
    var a := s.approvals[id];
    var t := SetApproval(s, id, a.(status := Consumed, execution := Some(execution))).(executions := s.executions[execution := id]);
    if !IsParked(s, a.gate.task) || s.tasks[a.gate.task].resume.None? then t
    else SetTask(t, a.gate.task, Task(s.tasks[a.gate.task].resume.value, None))
  }

  // ------------------------------------------------------------------ challenges

  function ComputeExpiresAt(now: int, approvalExpiresAt: int): int {
    if now + CHALLENGE_TTL_SECONDS <= approvalExpiresAt then now + CHALLENGE_TTL_SECONDS else approvalExpiresAt
  }

  predicate HasActiveChallenge(s: Store, approval: nat) {
    exists c :: c in s.challenges && s.challenges[c].approval == approval && s.challenges[c].status == Issued
  }

  /** The compare-and-swap out of ISSUED. */
  function EndChallenge(s: Store, token: nat, status: ChallengeStatus, update: Option<nat>): Store
    requires token in s.challenges
  {
    if s.challenges[token].status != Issued then s
    else s.(challenges := s.challenges[token := s.challenges[token].(status := status, consumedUpdate := update)])
  }

  // ------------------------------------------------------------------ the callback processor

  datatype CallbackAction = Approve | Reject | ShowDetails
  datatype Callback = Callback(updateId: int, messageDate: int, chatOk: bool, senderOk: bool,
                               parsed: Option<(CallbackAction, nat)>)

  function AdvanceCursor(s: Store, update: nat): Store {
    var next := if update + 1 <= MAX_INT then update + 1 else MAX_INT;
    s.(cursor := if s.cursor >= next then s.cursor else next)
  }

  function WithLog(s: Store, update: nat, row: LogRow): Store {
    s.(log := s.log[update := row])
  }

  function Logged(s: Store, update: nat, row: LogRow): Store {
    AdvanceCursor(WithLog(s, update, row), update)
  }

  /** Below the cursor: logged once as stale, and nothing else. */
  function LogStale(s: Store, update: nat): (Store, Outcome) {
    if update in s.log then (s, DuplicateUpdate)
    else (WithLog(s, update, LogRow(None, None, None, StaleUpdateCode)), StaleUpdate)
  }

  function PersistTerminal(s: Store, update: nat, code: LogCode, outcome: Outcome): (Store, Outcome) {
    if update < s.cursor then LogStale(s, update)
    else if update in s.log then (s, DuplicateUpdate)
    else (Logged(s, update, LogRow(None, None, None, code)), outcome)
  }

  function TerminalOutcome(status: ChallengeStatus): (Outcome, LogCode) {
    match status
    case ConsumedApproved => (UsedToken, UsedTokenCode)
    case ConsumedRejected => (UsedToken, UsedTokenCode)
    case ExpiredChallenge => (ExpiredOutcome, ExpiredTokenCode)
    case _ => (UnknownChallenge, UnknownTokenCode)
  }

  /** `_decide_in_transaction`; `later` is the second clock reading of the decision itself. */
  function Decide(s: Store, approve: bool, token: nat, update: nat, messageDate: int, now: int, later: int): (Store, Outcome) {
    if update < s.cursor then LogStale(s, update)
    else if update in s.log then (s, DuplicateUpdate)
    else if token !in s.challenges then (Logged(s, update, LogRow(None, None, None, UnknownTokenCode)), UnknownChallenge)
    else
      var c := s.challenges[token];
      if c.status != Issued then
        var (outcome, code) := TerminalOutcome(c.status);
        (Logged(s, update, LogRow(None, Some(token), Some(c.approval), code)), outcome)
      else if c.expiresAt <= now || (messageDate >= c.createdAt && messageDate >= c.expiresAt) then
        (Logged(EndChallenge(s, token, ExpiredChallenge, None), update, LogRow(None, Some(token), None, ExpiredTokenCode)), ExpiredOutcome)
      else if messageDate < c.createdAt || messageDate > now + FUTURE_SKEW_BOUND then
        (Logged(s, update, LogRow(None, Some(token), None, StaleMessageCode)), StaleMessage)
      else DecideOpen(s, approve, token, update, now, later)
  }

  /** The checks of the approval behind an open challenge, and the decision. */
  function DecideOpen(s: Store, approve: bool, token: nat, update: nat, now: int, later: int): (Store, Outcome)
    requires token in s.challenges
  {
    var c := s.challenges[token];
    if c.approval !in s.approvals then
      (Logged(EndChallenge(s, token, Invalidated, None), update, LogRow(None, Some(token), None, BindingMismatchCode)), GateChanged)
    else
      var a := s.approvals[c.approval];
      if a.binding != a.gate || c.binding != a.gate || c.task != a.gate.task then
        (Logged(EndChallenge(s, token, Invalidated, None), update, LogRow(None, Some(token), Some(c.approval), BindingMismatchCode)), GateChanged)
      else if a.status != PendingApproval then
        (Logged(s, update, LogRow(None, Some(token), Some(c.approval), ApprovalNotPendingCode)), GateDecided)
      else if a.expiresAt <= now then
        (Logged(ExpireAndRelease(s, c.approval, later), update, LogRow(None, Some(token), Some(c.approval), ExpiredApprovalCode)), ExpiredOutcome)
      else if approve && !CanApprove(s, c.approval, later) then (s, ErrorOutcome)
      else
        var t := EndChallenge(s, token, if approve then ConsumedApproved else ConsumedRejected, Some(update));
        var u := if approve then MarkApproved(t, c.approval) else MarkRejected(t, c.approval);
        (Logged(u, update, LogRow(Some(approve), Some(token), Some(c.approval), if approve then ApprovedCode else RejectedCode)),
         if approve then ApprovedOutcome else RejectedOutcome)
  }

  function ProcessCallback(s: Store, cb: Callback, now: int, later: int): (Store, Outcome) {
    if !(0 <= cb.updateId <= MAX_INT) then (s, MalformedOutcome)
    else if cb.updateId == MAX_INT || !(0 <= cb.messageDate <= MAX_INT) then PersistTerminal(s, cb.updateId, MalformedCode, MalformedOutcome)
    else if !cb.chatOk then PersistTerminal(s, cb.updateId, WrongChatCode, WrongChat)
    else if !cb.senderOk then PersistTerminal(s, cb.updateId, SpoofedSenderCode, SpoofedSender)
    else if cb.parsed.None? then PersistTerminal(s, cb.updateId, MalformedCode, MalformedOutcome)
    else
      match cb.parsed.value.0
      case ShowDetails => (s, if cb.parsed.value.1 in s.challenges then Details else UnknownChallenge)
      case Approve => Decide(s, true, cb.parsed.value.1, cb.updateId, cb.messageDate, now, later)
      case Reject => Decide(s, false, cb.parsed.value.1, cb.updateId, cb.messageDate, now, later)
  }

  // ------------------------------------------------------------------ all commands

  datatype Command =
    | RequestAction(id: nat, gate: Binding, expiresAt: int)
    | CreateChallenge(token: nat, approval: nat, now: int)
    | CoreApprove(id: nat, gate: Binding, now: int)
    | CoreReject(id: nat, gate: Binding, now: int)
    | Release(id: nat, now: int)
    | ExecuteApproved(id: nat, gate: Binding, execution: nat, permitted: bool, now: int)
    | Process(callback: Callback, now: int, later: int)
    | SweepChallenge(token: nat, status: ChallengeStatus)
    | OtherWork(task: nat, to: Task)
    | BrokerConsume(id: nat, now: int)

  predicate DuplicateRequest(s: Store, gate: Binding) {
    exists a :: a in s.approvals && s.approvals[a].gate == gate && IsOpen(s.approvals[a])
  }

  function Step(s: Store, cmd: Command): Store {
    match cmd
    case RequestAction(id, gate, expiresAt) =>
      if id in s.approvals || gate.task !in s.tasks || !IsActionable(s.tasks[gate.task].state) || DuplicateRequest(s, gate) then s
      else SetTask(SetApproval(s, id, Approval(gate, gate, PendingApproval, expiresAt, None)), gate.task,
                   Task(OwnerApprovalRequired, Some(s.tasks[gate.task].state)))
    case CreateChallenge(token, id, now) =>
      if token in s.challenges || id !in s.approvals || s.approvals[id].binding != s.approvals[id].gate
         || s.approvals[id].expiresAt <= now || HasActiveChallenge(s, id) then s
      else
        var a := s.approvals[id];
        s.(challenges := s.challenges[token := Challenge(id, a.gate.task, a.gate, Issued, now, ComputeExpiresAt(now, a.expiresAt), None)])
    case CoreApprove(id, gate, now) =>
      if CanApprove(s, id, now) && s.approvals[id].gate == gate then MarkApproved(s, id) else s
    case CoreReject(id, gate, now) =>
      if CanReject(s, id) && s.approvals[id].gate == gate && s.approvals[id].expiresAt > now then MarkRejected(s, id) else s
    case Release(id, now) => ExpireAndRelease(s, id, now)
    case ExecuteApproved(id, gate, execution, permitted, now) =>
      if id in s.approvals && s.approvals[id].gate == gate && s.approvals[id].status == Approved && s.approvals[id].expiresAt > now
         && permitted && execution !in s.executions
         && (IsParked(s, gate.task) && s.tasks[gate.task].resume.Some? ==>
               IsAllowed(OwnerApprovalRequired, s.tasks[gate.task].resume.value, s.tasks[gate.task].resume))
      then ConsumeWithExecution(s, id, execution) else s
    case Process(cb, now, later) => ProcessCallback(s, cb, now, later).0
    case SweepChallenge(token, status) =>
      if token in s.challenges && status in {ExpiredChallenge, Invalidated} then EndChallenge(s, token, status, None) else s
    case OtherWork(task, to) =>
      if IsParked(s, task) || to.state == OwnerApprovalRequired then s else SetTask(s, task, to)
    case BrokerConsume(id, now) =>
      if id in s.approvals && s.approvals[id].status == Approved && s.approvals[id].expiresAt > now
      then SetApproval(s, id, s.approvals[id].(status := Consumed)) else s
  }

  function Run(s: Store, cmds: seq<Command>): Store
    decreases |cmds|
  {
    if cmds == [] then s else Run(Step(s, cmds[0]), cmds[1..])
  }

  const EMPTY: Store := Store(map[], map[], map[], map[], map[], 0)

  // ------------------------------------------------------------------ invariant

  /** What the log says about one update: it is behind the cursor, and a decision row is the one decision of its
      challenge and of its approval. */
  predicate RowOk(s: Store, u: nat) {
    u in s.log ==>
      && (u < s.cursor || u == s.cursor == MAX_INT)
      && var r := s.log[u];
         r.decision.Some? ==>
           && r.challenge.Some? && r.challenge.value in s.challenges
           && r.approval == Some(s.challenges[r.challenge.value].approval)
           && s.challenges[r.challenge.value].consumedUpdate == Some(u)
           && s.challenges[r.challenge.value].status == (if r.decision.value then ConsumedApproved else ConsumedRejected)
  }

  predicate ChallengeOk(s: Store, c: nat) {
    c in s.challenges ==>
      var x := s.challenges[c];
      && x.approval in s.approvals && x.binding == s.approvals[x.approval].gate && x.task == x.binding.task
      && x.expiresAt <= s.approvals[x.approval].expiresAt && x.expiresAt <= x.createdAt + CHALLENGE_TTL_SECONDS
      && (x.status in {ConsumedApproved, ConsumedRejected} <==> x.consumedUpdate.Some?)
      && (x.consumedUpdate.Some? ==>
            && s.approvals[x.approval].status != PendingApproval
            && x.consumedUpdate.value in s.log
            && s.log[x.consumedUpdate.value].decision == Some(x.status == ConsumedApproved)
            && s.log[x.consumedUpdate.value].challenge == Some(c))
  }

  predicate ApprovalOk(s: Store, a: nat) {
    a in s.approvals ==>
      var x := s.approvals[a];
      && x.binding == x.gate
      && (x.execution.Some? ==> x.status == Consumed && x.execution.value in s.executions && s.executions[x.execution.value] == a)
  }

  predicate ExecutionOk(s: Store, e: nat) {
    e in s.executions ==> s.executions[e] in s.approvals && s.approvals[s.executions[e]].execution == Some(e)
  }

  /** At most one challenge of an approval was consumed. */
  ghost predicate OneConsumed(s: Store) {
    forall c, d | c in s.challenges && d in s.challenges && s.challenges[c].approval == s.challenges[d].approval
                  && s.challenges[c].consumedUpdate.Some? && s.challenges[d].consumedUpdate.Some? :: c == d
  }

  ghost predicate Inv(s: Store) {
    && s.cursor <= MAX_INT
    && (forall u :: RowOk(s, u)) && (forall c :: ChallengeOk(s, c)) && (forall a :: ApprovalOk(s, a)) && (forall e :: ExecutionOk(s, e))
    && OneConsumed(s)
  }

  /** A parked task has an open approval and a state to go back to. */
  ghost predicate Grounded(s: Store, task: nat) {
    IsParked(s, task) ==>
      && IsValidResumeTarget(s.tasks[task].resume)
      && exists a :: OpenFor(s, a, task)
  }

  predicate OpenFor(s: Store, a: nat, task: nat) {
    a in s.approvals && s.approvals[a].gate.task == task && IsOpen(s.approvals[a])
  }

  ghost predicate NoStrandedGate(s: Store) {
    forall task :: Grounded(s, task)
  }

  // ------------------------------------------------------------------ preservation

  /** Nothing recorded is rewritten: log rows, executions and ended challenges are frozen, the cursor only grows,
      and an approval keeps its gate and never becomes pending again. */
  ghost predicate Grows(s: Store, t: Store) {
    && s.cursor <= t.cursor
    && (forall u :: u in s.log ==> u in t.log && t.log[u] == s.log[u])
    && (forall c :: c in s.challenges ==> c in t.challenges && (s.challenges[c].status != Issued ==> t.challenges[c] == s.challenges[c]))
    && (forall a :: a in s.approvals ==>
          && a in t.approvals && t.approvals[a].gate == s.approvals[a].gate && t.approvals[a].expiresAt == s.approvals[a].expiresAt
          && (s.approvals[a].status != PendingApproval ==> t.approvals[a].status != PendingApproval)
          && (s.approvals[a].execution.Some? ==> t.approvals[a].execution == s.approvals[a].execution))
    && (forall e :: e in s.executions ==> e in t.executions && t.executions[e] == s.executions[e])
  }

  lemma GrowsSelf(s: Store)
    ensures Grows(s, s)
  {
  }

  lemma GrowsTrans(s: Store, t: Store, u: Store)
    requires Grows(s, t) && Grows(t, u)
    ensures Grows(s, u)
  {
  }

  lemma RowStays(s: Store, t: Store, u: nat)
    requires RowOk(s, u) && Grows(s, t) && t.cursor <= MAX_INT && (u in t.log ==> u in s.log)
    requires u in s.log && s.log[u].decision.Some? && s.log[u].challenge.Some? ==> ChallengeOk(s, s.log[u].challenge.value)
    ensures RowOk(t, u)
  {
  }

  lemma ChallengeStays(s: Store, t: Store, c: nat)
    requires ChallengeOk(s, c) && Grows(s, t) && (c in t.challenges ==> c in s.challenges && t.challenges[c] == s.challenges[c])
    ensures ChallengeOk(t, c)
  {
  }

  /** Only the tasks changed. */
  lemma TasksOnly(s: Store, t: Store)
    requires Inv(s) && t.(tasks := s.tasks) == s
    ensures Inv(t) && Grows(s, t)
  {
    forall c: nat ensures ChallengeOk(t, c) {
      assert ChallengeOk(s, c);
    }
    forall u: nat ensures RowOk(t, u) {
      assert RowOk(s, u);
    }
    forall a: nat ensures ApprovalOk(t, a) {
      assert ApprovalOk(s, a);
    }
    forall e: nat ensures ExecutionOk(t, e) {
      assert ExecutionOk(s, e);
    }
  }

  /** One approval is added or moves on, with at most one execution record, and tasks may change. */
  lemma ApprovalChange(s: Store, t: Store, id: nat, e: Option<nat>)
    requires Inv(s) && t.challenges == s.challenges && t.log == s.log && t.cursor == s.cursor
    requires t.approvals.Keys == s.approvals.Keys + {id} && forall a :: a in s.approvals && a != id ==> t.approvals[a] == s.approvals[a]
    requires t.approvals[id].binding == t.approvals[id].gate
    requires id in s.approvals ==> t.approvals[id].gate == s.approvals[id].gate && t.approvals[id].expiresAt == s.approvals[id].expiresAt
                                   && (s.approvals[id].status != PendingApproval ==> t.approvals[id].status != PendingApproval)
    requires e.None? ==> t.executions == s.executions && t.approvals[id].execution == (if id in s.approvals then s.approvals[id].execution else None)
                         && (t.approvals[id].execution.Some? ==> t.approvals[id].status == Consumed)
    requires e.Some? ==> e.value !in s.executions && t.executions == s.executions[e.value := id] && t.approvals[id].execution == e
                         && t.approvals[id].status == Consumed && (id in s.approvals ==> s.approvals[id].execution == None)
    ensures Inv(t) && Grows(s, t)
  {
    assert Grows(s, t);
    forall c: nat ensures ChallengeOk(t, c) {
      assert ChallengeOk(s, c);
      ChallengeStays(s, t, c);
    }
    forall u: nat ensures RowOk(t, u) {
      assert RowOk(s, u);
    }
    forall a: nat ensures ApprovalOk(t, a) {
      assert ApprovalOk(s, a);
    }
    forall x: nat ensures ExecutionOk(t, x) {
      assert ExecutionOk(s, x);
    }
  }

  lemma ApprovalFacts(s: Store, id: nat)
    requires Inv(s)
    ensures ApprovalOk(s, id)
  {
  }

  lemma ExpireAndReleaseKeepsInv(s: Store, id: nat, now: int)
    requires Inv(s)
    ensures Inv(ExpireAndRelease(s, id, now)) && Grows(s, ExpireAndRelease(s, id, now))
  {
    hide Inv, Grows;
    ApprovalFacts(s, id);
    var t := ExpireAndRelease(s, id, now);
    if t.approvals == s.approvals {
      TasksOnly(s, t);
    } else {
      ApprovalChange(s, t, id, None);
    }
  }

  lemma MarkApprovedKeepsInv(s: Store, id: nat)
    requires Inv(s) && id in s.approvals && s.approvals[id].status == PendingApproval
    ensures Inv(MarkApproved(s, id)) && Grows(s, MarkApproved(s, id))
  {
    hide Inv, Grows;
    ApprovalFacts(s, id);
    ApprovalChange(s, MarkApproved(s, id), id, None);
  }

  lemma MarkRejectedKeepsInv(s: Store, id: nat)
    requires Inv(s) && id in s.approvals && s.approvals[id].status == PendingApproval
    ensures Inv(MarkRejected(s, id)) && Grows(s, MarkRejected(s, id))
  {
    hide Inv, Grows;
    ApprovalFacts(s, id);
    ApprovalChange(s, MarkRejected(s, id), id, None);
  }

  lemma ConsumeKeepsInv(s: Store, id: nat, e: nat)
    requires Inv(s) && id in s.approvals && s.approvals[id].status == Approved && e !in s.executions
    ensures Inv(ConsumeWithExecution(s, id, e)) && Grows(s, ConsumeWithExecution(s, id, e))
  {
    hide Inv, Grows;
    ApprovalFacts(s, id);
    ApprovalChange(s, ConsumeWithExecution(s, id, e), id, Some(e));
  }

  /** A challenge ends without a decision. */
  lemma EndKeepsInv(s: Store, token: nat, status: ChallengeStatus)
    requires Inv(s) && token in s.challenges && status in {ExpiredChallenge, Invalidated}
    ensures Inv(EndChallenge(s, token, status, None)) && Grows(s, EndChallenge(s, token, status, None))
  {
    var t := EndChallenge(s, token, status, None);
    assert ChallengeOk(s, token);
    assert Grows(s, t);
    forall c: nat ensures ChallengeOk(t, c) {
      assert ChallengeOk(s, c);
    }
    forall u: nat ensures RowOk(t, u) {
      assert RowOk(s, u);
    }
    forall a: nat ensures ApprovalOk(t, a) {
      assert ApprovalOk(s, a);
    }
    forall e: nat ensures ExecutionOk(t, e) {
      assert ExecutionOk(s, e);
    }
  }

  /** A log row without a decision, with or without the cursor moving past it. */
  lemma LogKeepsInv(s: Store, t: Store, u: nat, row: LogRow)
    requires Inv(s) && u !in s.log && u <= MAX_INT && row.decision == None
    requires t == Logged(s, u, row) || (t == WithLog(s, u, row) && u < s.cursor)
    ensures Inv(t) && Grows(s, t)
  {
    assert Grows(s, t);
    forall c: nat ensures ChallengeOk(t, c) {
      assert ChallengeOk(s, c);
    }
    forall v: nat ensures RowOk(t, v) {
      assert RowOk(s, v);
    }
    forall a: nat ensures ApprovalOk(t, a) {
      assert ApprovalOk(s, a);
    }
    forall e: nat ensures ExecutionOk(t, e) {
      assert ExecutionOk(s, e);
    }
  }

  /** The store after a recorded decision. */
  function Decided(s: Store, approve: bool, token: nat, update: nat): Store
    requires token in s.challenges && s.challenges[token].approval in s.approvals
  {
    var id := s.challenges[token].approval;
    var t := EndChallenge(s, token, if approve then ConsumedApproved else ConsumedRejected, Some(update));
    var u := if approve then MarkApproved(t, id) else MarkRejected(t, id);
    Logged(u, update, LogRow(Some(approve), Some(token), Some(id), if approve then ApprovedCode else RejectedCode))
  }

  predicate DecisionChange(s: Store, t: Store, token: nat, update: nat, approve: bool)
    requires token in s.challenges && s.challenges[token].approval in s.approvals
  {
    var c := s.challenges[token];
    && t.challenges == s.challenges[token := c.(status := if approve then ConsumedApproved else ConsumedRejected, consumedUpdate := Some(update))]
    && c.approval in t.approvals && t.approvals[c.approval].status in {Approved, RejectedApproval}
    && t.approvals == s.approvals[c.approval := s.approvals[c.approval].(status := t.approvals[c.approval].status)]
    && t.executions == s.executions && update in t.log && t.log == s.log[update := t.log[update]]
    && t.log[update].decision == Some(approve) && t.log[update].challenge == Some(token) && t.log[update].approval == Some(c.approval)
    && s.cursor <= t.cursor <= MAX_INT && (update < t.cursor || update == t.cursor == MAX_INT)
  }

  lemma DecidedShape(s: Store, approve: bool, token: nat, update: nat)
    requires token in s.challenges && s.challenges[token].status == Issued && update <= MAX_INT && s.cursor <= MAX_INT
    requires s.challenges[token].approval in s.approvals
    ensures DecisionChange(s, Decided(s, approve, token, update), token, update, approve)
  {
  }

  lemma DecisionRows(s: Store, t: Store, token: nat, update: nat, approve: bool)
    requires Inv(s) && token in s.challenges && s.challenges[token].status == Issued && update !in s.log
    requires s.challenges[token].approval in s.approvals && s.approvals[s.challenges[token].approval].status == PendingApproval
    requires DecisionChange(s, t, token, update, approve)
    ensures forall v: nat :: RowOk(t, v)
    ensures forall c: nat :: ChallengeOk(t, c)
  {
    hide ApprovalOk, ExecutionOk, OneConsumed;
    forall v: nat ensures RowOk(t, v) {
      assert RowOk(s, v);
    }
    forall c: nat ensures ChallengeOk(t, c) {
      assert ChallengeOk(s, c);
    }
  }

  lemma DecisionRest(s: Store, t: Store, token: nat, update: nat, approve: bool)
    requires Inv(s) && token in s.challenges && s.challenges[token].status == Issued && update !in s.log
    requires s.challenges[token].approval in s.approvals && s.approvals[s.challenges[token].approval].status == PendingApproval
    requires DecisionChange(s, t, token, update, approve)
    ensures Grows(s, t) && OneConsumed(t)
    ensures forall a: nat :: ApprovalOk(t, a)
    ensures forall e: nat :: ExecutionOk(t, e)
  {
    hide RowOk;
    forall a: nat ensures ApprovalOk(t, a) {
      assert ApprovalOk(s, a);
    }
    forall e: nat ensures ExecutionOk(t, e) {
      assert ExecutionOk(s, e);
    }
    forall c | c in s.challenges && s.challenges[c].consumedUpdate.Some? ensures s.challenges[c].approval != s.challenges[token].approval {
      assert ChallengeOk(s, c);
    }
  }

  /** A recorded decision: log row, challenge and approval move together. */
  lemma DecidedKeepsInv(s: Store, approve: bool, token: nat, update: nat)
    requires Inv(s) && token in s.challenges && s.challenges[token].status == Issued && update !in s.log && update <= MAX_INT
    requires s.challenges[token].approval in s.approvals && s.approvals[s.challenges[token].approval].status == PendingApproval
    ensures Inv(Decided(s, approve, token, update)) && Grows(s, Decided(s, approve, token, update))
  {
    hide RowOk, ChallengeOk, ApprovalOk, ExecutionOk, OneConsumed, Grows, Decided;
    var t := Decided(s, approve, token, update);
    DecidedShape(s, approve, token, update);
    DecisionRows(s, t, token, update, approve);
    DecisionRest(s, t, token, update, approve);
  }

  /** An open challenge of this system always passes the binding and expiry checks of its approval: GATE_CHANGED
      and EXPIRED_APPROVAL are never reached, because the challenge's expiry is capped by the approval's. */
  lemma ApprovalOutlivesChallenge(s: Store, token: nat, now: int)
    requires Inv(s) && token in s.challenges && s.challenges[token].expiresAt > now
    ensures var c := s.challenges[token];
            && c.approval in s.approvals
            && var a := s.approvals[c.approval];
               a.binding == a.gate == c.binding && c.task == a.gate.task && a.expiresAt > now
  {
    assert ChallengeOk(s, token);
    assert ApprovalOk(s, s.challenges[token].approval);
  }

  lemma PersistKeepsInv(s: Store, update: nat, code: LogCode, outcome: Outcome)
    requires Inv(s) && update <= MAX_INT
    ensures Inv(PersistTerminal(s, update, code, outcome).0) && Grows(s, PersistTerminal(s, update, code, outcome).0)
  {
    hide Inv, Grows;
    GrowsSelf(s);
    if update !in s.log {
      var row := LogRow(None, None, None, if update < s.cursor then StaleUpdateCode else code);
      LogKeepsInv(s, PersistTerminal(s, update, code, outcome).0, update, row);
    }
  }

  lemma DecideOpenKeepsInv(s: Store, approve: bool, token: nat, update: nat, now: int, later: int)
    requires Inv(s) && token in s.challenges && s.challenges[token].status == Issued && s.challenges[token].expiresAt > now
    requires update !in s.log && update <= MAX_INT
    ensures var t := DecideOpen(s, approve, token, update, now, later).0; Inv(t) && Grows(s, t)
    ensures DecideOpen(s, approve, token, update, now, later).1 in {GateDecided, ErrorOutcome, ApprovedOutcome, RejectedOutcome}
  {
    hide Inv, Grows;
    GrowsSelf(s);
    ApprovalOutlivesChallenge(s, token, now);
    var id := s.challenges[token].approval;
    if s.approvals[id].status != PendingApproval {
      var row := LogRow(None, Some(token), Some(id), ApprovalNotPendingCode);
      LogKeepsInv(s, Logged(s, update, row), update, row);
    } else if !(approve && !CanApprove(s, id, later)) {
      DecidedKeepsInv(s, approve, token, update);
    }
  }

  lemma DecideKeepsInv(s: Store, approve: bool, token: nat, update: nat, messageDate: int, now: int, later: int)
    requires Inv(s) && update <= MAX_INT
    ensures var t := Decide(s, approve, token, update, messageDate, now, later).0; Inv(t) && Grows(s, t)
  {
    hide Inv, Grows, DecideOpen;
    GrowsSelf(s);
    var t := Decide(s, approve, token, update, messageDate, now, later).0;
    if update in s.log {
    } else if update < s.cursor {
      LogKeepsInv(s, t, update, LogRow(None, None, None, StaleUpdateCode));
    } else if token !in s.challenges || s.challenges[token].status != Issued {
      LogKeepsInv(s, t, update, t.log[update]);
    } else {
      var c := s.challenges[token];
      if c.expiresAt <= now || (messageDate >= c.createdAt && messageDate >= c.expiresAt) {
        var e := EndChallenge(s, token, ExpiredChallenge, None);
        EndKeepsInv(s, token, ExpiredChallenge);
        LogKeepsInv(e, t, update, LogRow(None, Some(token), None, ExpiredTokenCode));
        GrowsTrans(s, e, t);
      } else if messageDate < c.createdAt || messageDate > now + FUTURE_SKEW_BOUND {
        LogKeepsInv(s, t, update, LogRow(None, Some(token), None, StaleMessageCode));
      } else {
        DecideOpenKeepsInv(s, approve, token, update, now, later);
      }
    }
  }

  lemma ProcessKeepsInv(s: Store, cb: Callback, now: int, later: int)
    requires Inv(s)
    ensures var t := ProcessCallback(s, cb, now, later).0; Inv(t) && Grows(s, t)
  {
    hide Inv, Grows, Decide, PersistTerminal;
    GrowsSelf(s);
    if 0 <= cb.updateId <= MAX_INT {
      PersistKeepsInv(s, cb.updateId, MalformedCode, MalformedOutcome);
      PersistKeepsInv(s, cb.updateId, WrongChatCode, WrongChat);
      PersistKeepsInv(s, cb.updateId, SpoofedSenderCode, SpoofedSender);
      if cb.parsed.Some? {
        DecideKeepsInv(s, true, cb.parsed.value.1, cb.updateId, cb.messageDate, now, later);
        DecideKeepsInv(s, false, cb.parsed.value.1, cb.updateId, cb.messageDate, now, later);
      }
    }
  }

  lemma ChallengeKeepsInv(s: Store, token: nat, id: nat, now: int)
    requires Inv(s)
    ensures var t := Step(s, CreateChallenge(token, id, now)); Inv(t) && Grows(s, t)
  {
    var t := Step(s, CreateChallenge(token, id, now));
    assert Grows(s, t);
    forall c: nat ensures ChallengeOk(t, c) {
      assert ChallengeOk(s, c);
    }
    forall u: nat ensures RowOk(t, u) {
      assert RowOk(s, u);
    }
    forall a: nat ensures ApprovalOk(t, a) {
      assert ApprovalOk(s, a);
    }
    forall e: nat ensures ExecutionOk(t, e) {
      assert ExecutionOk(s, e);
    }
  }

  lemma StepKeepsInv(s: Store, cmd: Command)
    requires Inv(s)
    ensures Inv(Step(s, cmd)) && Grows(s, Step(s, cmd))
  {
    hide Inv, Grows, ProcessCallback, ExpireAndRelease, MarkApproved, MarkRejected, ConsumeWithExecution, EndChallenge;
    GrowsSelf(s);
    var t := Step(s, cmd);
    if t != s {
      match cmd
      case RequestAction(id, gate, expiresAt) => ApprovalChange(s, t, id, None);
      case CreateChallenge(token, id, now) => ChallengeKeepsInv(s, token, id, now);
      case CoreApprove(id, gate, now) => MarkApprovedKeepsInv(s, id);
      case CoreReject(id, gate, now) => MarkRejectedKeepsInv(s, id);
      case Release(id, now) => ExpireAndReleaseKeepsInv(s, id, now);
      case ExecuteApproved(id, gate, e, permitted, now) => ConsumeKeepsInv(s, id, e);
      case Process(cb, now, later) => ProcessKeepsInv(s, cb, now, later);
      case SweepChallenge(token, status) => EndKeepsInv(s, token, status);
      case OtherWork(task, to) => TasksOnly(s, t);
      case BrokerConsume(id, now) =>
        ApprovalFacts(s, id);
        ApprovalChange(s, t, id, None);
    }
  }

  lemma EmptyInv()
    ensures Inv(EMPTY) && NoStrandedGate(EMPTY)
  {
  }

  lemma {:induction false} InvAlongRun(s: Store, cmds: seq<Command>)
    requires Inv(s)
    ensures Inv(Run(s, cmds)) && Grows(s, Run(s, cmds))
    decreases |cmds|
  {
    hide Inv, Step, Grows;
    if cmds == [] {
      GrowsSelf(s);
    } else {
      StepKeepsInv(s, cmds[0]);
      InvAlongRun(Step(s, cmds[0]), cmds[1..]);
      GrowsTrans(s, Step(s, cmds[0]), Run(s, cmds));
    }
  }

  // ------------------------------------------------------------------ what every run guarantees

  /** Exactly-once decisions: over every interleaving of callbacks with the owner commands, a challenge and an
      approval each have at most one decision row, and a decision row matches its challenge's terminal status and
      consumed update. */
  lemma ExactlyOnceDecision(cmds: seq<Command>)
    ensures var t := Run(EMPTY, cmds);
            && (forall u, v | u in t.log && v in t.log && t.log[u].decision.Some? && t.log[v].decision.Some?
                              && (t.log[u].challenge == t.log[v].challenge || t.log[u].approval == t.log[v].approval) :: u == v)
            && (forall u | u in t.log && t.log[u].decision.Some? ::
                  && t.log[u].challenge.Some? && t.log[u].challenge.value in t.challenges
                  && var c := t.challenges[t.log[u].challenge.value];
                     c.consumedUpdate == Some(u) && c.status == if t.log[u].decision.value then ConsumedApproved else ConsumedRejected)
            && (forall c | c in t.challenges && t.challenges[c].status in {ConsumedApproved, ConsumedRejected} ::
                  exists u :: u in t.log && t.log[u].decision.Some? && t.log[u].challenge == Some(c))
  {
    hide Run;
    EmptyInv();
    InvAlongRun(EMPTY, cmds);
    var t := Run(EMPTY, cmds);
    forall u, v | u in t.log && v in t.log && t.log[u].decision.Some? && t.log[v].decision.Some?
                  && (t.log[u].challenge == t.log[v].challenge || t.log[u].approval == t.log[v].approval)
      ensures u == v
    {
      assert RowOk(t, u) && RowOk(t, v);
    }
    forall u | u in t.log && t.log[u].decision.Some?
      ensures t.log[u].challenge.Some? && t.log[u].challenge.value in t.challenges
      ensures var c := t.challenges[t.log[u].challenge.value];
              c.consumedUpdate == Some(u) && c.status == if t.log[u].decision.value then ConsumedApproved else ConsumedRejected
    {
      assert RowOk(t, u);
    }
    forall c | c in t.challenges && t.challenges[c].status in {ConsumedApproved, ConsumedRejected}
      ensures exists u :: u in t.log && t.log[u].decision.Some? && t.log[u].challenge == Some(c)
    {
      assert ChallengeOk(t, c);
      var u := t.challenges[c].consumedUpdate.value;
      assert u in t.log && t.log[u].decision.Some? && t.log[u].challenge == Some(c);
    }
  }

  /** A challenge that has ended, a log row and an execution never change again, and the cursor never goes back. */
  lemma RecordsAreFinal(s: Store, cmds: seq<Command>)
    requires Inv(s)
    ensures var t := Run(s, cmds);
            && (forall c | c in s.challenges && s.challenges[c].status != Issued :: c in t.challenges && t.challenges[c] == s.challenges[c])
            && (forall u | u in s.log :: u in t.log && t.log[u] == s.log[u])
            && s.cursor <= t.cursor <= MAX_INT
  {
    hide Run, RowOk, ChallengeOk, ApprovalOk, ExecutionOk;
    InvAlongRun(s, cmds);
  }

  /** Replay is a no-op: every logged update is behind the cursor, or at the saturated cursor, and processing it
      again, with any payload at any time, leaves the whole store as it is. */
  lemma ReplayIsNoOp(cmds: seq<Command>, cb: Callback, now: int, later: int)
    requires 0 <= cb.updateId && cb.updateId as nat in Run(EMPTY, cmds).log
    ensures var t := Run(EMPTY, cmds);
            && (cb.updateId < t.cursor || cb.updateId == t.cursor == MAX_INT)
            && ProcessCallback(t, cb, now, later).0 == t
            && ProcessCallback(t, cb, now, later).1 in {DuplicateUpdate, Details, UnknownChallenge}
  {
    hide Run;
    EmptyInv();
    InvAlongRun(EMPTY, cmds);
    assert RowOk(Run(EMPTY, cmds), cb.updateId);
  }

  /** No callback ever finds a changed gate, and one that finds an expired challenge touches no approval and no task:
      the EXPIRED_APPROVAL and GATE_CHANGED branches are unreachable. */
  lemma CallbackNeverFindsStaleGate(s: Store, cb: Callback, now: int, later: int)
    requires Inv(s)
    ensures var (t, outcome) := ProcessCallback(s, cb, now, later);
            outcome != GateChanged && (outcome == ExpiredOutcome ==> t.approvals == s.approvals && t.tasks == s.tasks)
  {
    hide Inv, Grows, DecideOpen;
    if 0 <= cb.updateId < MAX_INT && cb.parsed.Some? {
      var token := cb.parsed.value.1;
      if token in s.challenges && s.challenges[token].status == Issued && s.challenges[token].expiresAt > now && cb.updateId as nat !in s.log {
        DecideOpenKeepsInv(s, true, token, cb.updateId, now, later);
        DecideOpenKeepsInv(s, false, token, cb.updateId, now, later);
      }
    }
  }

  // ------------------------------------------------------------------ no stranded gate

  lemma ReleaseGrounds(s: Store, id: nat, now: int, task: nat)
    requires Grounded(s, task)
    ensures Grounded(ExpireAndRelease(s, id, now), task)
  {
    var t := ExpireAndRelease(s, id, now);
    if IsParked(t, task) {
      var a :| OpenFor(s, a, task);
      assert OpenFor(t, a, task);
    }
  }

  lemma RejectGrounds(s: Store, id: nat, task: nat)
    requires Grounded(s, task) && id in s.approvals
    ensures Grounded(MarkRejected(s, id), task)
  {
    var t := MarkRejected(s, id);
    if IsParked(t, task) {
      var a :| OpenFor(s, a, task);
      assert OpenFor(t, a, task);
    }
  }

  lemma ApproveGrounds(s: Store, id: nat, task: nat)
    requires Grounded(s, task) && id in s.approvals && s.approvals[id].status == PendingApproval
    ensures Grounded(MarkApproved(s, id), task)
  {
    var t := MarkApproved(s, id);
    if IsParked(t, task) {
      var a :| OpenFor(s, a, task);
      assert OpenFor(t, a, task);
    }
  }

  lemma ConsumeGrounds(s: Store, id: nat, e: nat, task: nat)
    requires Grounded(s, task) && id in s.approvals && Grounded(s, s.approvals[id].gate.task)
    ensures Grounded(ConsumeWithExecution(s, id, e), task)
    ensures !IsParked(ConsumeWithExecution(s, id, e), s.approvals[id].gate.task)
  {
    var t := ConsumeWithExecution(s, id, e);
    if IsParked(t, task) {
      var a :| OpenFor(s, a, task);
      assert OpenFor(t, a, task);
    }
  }

  lemma SameGateGrounds(s: Store, t: Store, task: nat)
    requires Grounded(s, task) && t.tasks == s.tasks && t.approvals == s.approvals
    ensures Grounded(t, task)
  {
    if IsParked(t, task) {
      var a :| OpenFor(s, a, task);
      assert OpenFor(t, a, task);
    }
  }

  lemma CallbackGrounds(s: Store, cb: Callback, now: int, later: int, task: nat)
    requires Inv(s) && Grounded(s, task)
    ensures Grounded(ProcessCallback(s, cb, now, later).0, task)
  {
    hide Inv, Grounded;
    var t := ProcessCallback(s, cb, now, later).0;
    CallbackTouches(s, cb, now, later);
    if t.tasks == s.tasks && t.approvals == s.approvals {
      SameGateGrounds(s, t, task);
    } else {
      var c := s.challenges[cb.parsed.value.1];
      if cb.parsed.value.0 == Approve {
        ApproveGrounds(s, c.approval, task);
        SameGateGrounds(MarkApproved(s, c.approval), t, task);
      } else {
        RejectGrounds(s, c.approval, task);
        SameGateGrounds(MarkRejected(s, c.approval), t, task);
      }
    }
  }

  predicate SameGates(s: Store, t: Store) {
    t.tasks == s.tasks && t.approvals == s.approvals
  }

  /** Tasks and approvals change, if at all, as by the owner command on the challenge's pending approval. */
  predicate ActsAsOwner(s: Store, t: Store, approve: bool, token: nat) {
    || SameGates(s, t)
    || (token in s.challenges && var id := s.challenges[token].approval;
        id in s.approvals && s.approvals[id].status == PendingApproval
        && SameGates(if approve then MarkApproved(s, id) else MarkRejected(s, id), t))
  }

  lemma DecideOpenTouches(s: Store, approve: bool, token: nat, update: nat, now: int, later: int)
    requires Inv(s) && token in s.challenges && s.challenges[token].expiresAt > now
    ensures ActsAsOwner(s, DecideOpen(s, approve, token, update, now, later).0, approve, token)
  {
    hide Inv;
    ApprovalOutlivesChallenge(s, token, now);
  }

  lemma DecideTouches(s: Store, approve: bool, token: nat, update: nat, messageDate: int, now: int, later: int)
    requires Inv(s)
    ensures ActsAsOwner(s, Decide(s, approve, token, update, messageDate, now, later).0, approve, token)
  {
    hide Inv, DecideOpen;
    if token in s.challenges && s.challenges[token].expiresAt > now {
      DecideOpenTouches(s, approve, token, update, now, later);
    }
  }

  /** A callback changes tasks and approvals only by the decision that the owner command would have made. */
  lemma CallbackTouches(s: Store, cb: Callback, now: int, later: int)
    requires Inv(s)
    ensures var t := ProcessCallback(s, cb, now, later).0;
            || SameGates(s, t)
            || (cb.parsed.Some? && cb.parsed.value.0 in {Approve, Reject} && ActsAsOwner(s, t, cb.parsed.value.0 == Approve, cb.parsed.value.1))
  {
    hide Inv, Decide, ActsAsOwner;
    if cb.parsed.Some? && 0 <= cb.updateId {
      DecideTouches(s, true, cb.parsed.value.1, cb.updateId, cb.messageDate, now, later);
      DecideTouches(s, false, cb.parsed.value.1, cb.updateId, cb.messageDate, now, later);
    }
  }

  /** Every command but the broker's keeps every parked task grounded. */
  lemma StepGrounds(s: Store, cmd: Command, task: nat)
    requires Inv(s) && NoStrandedGate(s) && !cmd.BrokerConsume?
    ensures Grounded(Step(s, cmd), task)
  {
    hide Inv, ProcessCallback, ExpireAndRelease, MarkApproved, MarkRejected, ConsumeWithExecution;
    var t := Step(s, cmd);
    assert Grounded(s, task);
    match cmd
    case RequestAction(id, gate, expiresAt) => RequestGrounds(s, cmd, task);
    case CoreApprove(id, gate, now) => if t != s { ApproveGrounds(s, id, task); }
    case CoreReject(id, gate, now) => if t != s { RejectGrounds(s, id, task); }
    case Release(id, now) => ReleaseGrounds(s, id, now, task);
    case ExecuteApproved(id, gate, e, permitted, now) =>
      if t != s {
        assert Grounded(s, s.approvals[id].gate.task);
        ConsumeGrounds(s, id, e, task);
      }
    case Process(cb, now, later) => CallbackGrounds(s, cb, now, later, task);
    case OtherWork(k, to) =>
      if IsParked(t, task) {
        var a :| OpenFor(s, a, task);
        assert OpenFor(t, a, task);
      }
    case _ => SameGateGrounds(s, t, task);
  }

  lemma RequestGrounds(s: Store, cmd: Command, task: nat)
    requires cmd.RequestAction? && Grounded(s, task)
    ensures Grounded(Step(s, cmd), task)
  {
    var t := Step(s, cmd);
    if IsParked(t, task) {
      if IsParked(s, task) {
        var a :| OpenFor(s, a, task);
        assert OpenFor(t, a, task);
      } else {
        assert OpenFor(t, cmd.id, task);
      }
    }
  }

  /** No stranded gate: over all runs of requests, owner commands, executions, expiry, callbacks and other work, a
      task parked for the owner has a pending or approved approval and a valid state to resume. */
  lemma {:induction false} GatesNeverStrand(s: Store, cmds: seq<Command>)
    requires Inv(s) && NoStrandedGate(s) && forall i :: 0 <= i < |cmds| ==> !cmds[i].BrokerConsume?
    ensures NoStrandedGate(Run(s, cmds))
    decreases |cmds|
  {
    hide Inv, Step;
    if cmds != [] {
      var t := Step(s, cmds[0]);
      StepKeepsInv(s, cmds[0]);
      forall task: nat ensures Grounded(t, task) {
        StepGrounds(s, cmds[0], task);
      }
      GatesNeverStrand(t, cmds[1..]);
    }
  }

  /** Closing an open approval of a task releases the task, even while another approval of it is still open. */
  lemma ClosingReleases(s: Store, cmd: Command, id: nat)
    requires Inv(s) && NoStrandedGate(s) && !cmd.BrokerConsume?
    requires id in s.approvals && IsOpen(s.approvals[id]) && id in Step(s, cmd).approvals && !IsOpen(Step(s, cmd).approvals[id])
    ensures !IsParked(Step(s, cmd), s.approvals[id].gate.task)
  {
    hide Inv;
    assert Grounded(s, s.approvals[id].gate.task);
    if cmd.Process? {
      CallbackTouches(s, cmd.callback, cmd.now, cmd.later);
    }
  }

  predicate ConsumedHasExecution(s: Store) {
    forall a :: a in s.approvals && s.approvals[a].status == Consumed ==> s.approvals[a].execution.Some?
  }

  lemma {:induction false} ConsumedAlongRun(s: Store, cmds: seq<Command>)
    requires Inv(s) && ConsumedHasExecution(s) && forall i :: 0 <= i < |cmds| ==> !cmds[i].BrokerConsume?
    ensures ConsumedHasExecution(Run(s, cmds))
    decreases |cmds|
  {
    hide Inv, Step, ConsumedHasExecution;
    if cmds != [] {
      StepKeepsInv(s, cmds[0]);
      ConsumedStep(s, cmds[0]);
      ConsumedAlongRun(Step(s, cmds[0]), cmds[1..]);
    }
  }

  lemma ConsumedStep(s: Store, cmd: Command)
    requires Inv(s) && ConsumedHasExecution(s) && !cmd.BrokerConsume?
    ensures ConsumedHasExecution(Step(s, cmd))
  {
    hide Inv;
    if cmd.Process? {
      hide ProcessCallback;
      CallbackTouches(s, cmd.callback, cmd.now, cmd.later);
    }
  }

  /** Without the broker's own consumption, an approval is consumed exactly when one execution record names it, and
      then only one does. */
  lemma OneExecutionPerConsumption(cmds: seq<Command>, id: nat)
    requires forall i :: 0 <= i < |cmds| ==> !cmds[i].BrokerConsume?
    requires id in Run(EMPTY, cmds).approvals
    ensures var t := Run(EMPTY, cmds);
            && (t.approvals[id].status == Consumed <==> exists e :: e in t.executions && t.executions[e] == id)
            && (forall e, f | e in t.executions && f in t.executions && t.executions[e] == t.executions[f] == id :: e == f)
  {
    hide Run;
    EmptyInv();
    InvAlongRun(EMPTY, cmds);
    ConsumedAlongRun(EMPTY, cmds);
    var t := Run(EMPTY, cmds);
    assert ApprovalOk(t, id);
    forall e | e in t.executions && t.executions[e] == id ensures t.approvals[id].execution == Some(e) {
      assert ExecutionOk(t, e);
    }
  }

  // ------------------------------------------------------------------ where the code falls short

  /** The broker consumes an owner approval with no execution record and no release.  Exactly when no other
      approval of that task is open, a task parked for it is then stranded. */
  lemma BrokerConsumptionStrandsIff(s: Store, id: nat, now: int)
    requires Inv(s) && NoStrandedGate(s)
    requires id in s.approvals && s.approvals[id].status == Approved && s.approvals[id].expiresAt > now && IsParked(s, s.approvals[id].gate.task)
    ensures var t := Step(s, BrokerConsume(id, now));
            var task := s.approvals[id].gate.task;
            && IsParked(t, task) && t.executions == s.executions
            && (Grounded(t, task) <==> exists a :: a != id && OpenFor(s, a, task))
  {
    hide Inv;
    var t := Step(s, BrokerConsume(id, now));
    var task := s.approvals[id].gate.task;
    assert Grounded(s, task);
    if Grounded(t, task) {
      var a :| OpenFor(t, a, task);
      assert a != id && OpenFor(s, a, task);
    }
    if a :| a != id && OpenFor(s, a, task) {
      assert OpenFor(t, a, task);
    }
  }

  /** And such a store is reachable: request, approve, then the broker. */
  lemma BrokerStrandsATask() returns (cmds: seq<Command>)
    ensures IsParked(Run(EMPTY, cmds), 0) && !Grounded(Run(EMPTY, cmds), 0)
  {
    var gate := Binding(0, 0, 0);
    cmds := [OtherWork(0, Task(FinalDecision, None)), RequestAction(0, gate, 100), CoreApprove(0, gate, 1), BrokerConsume(0, 2)];
    var s1 := Step(EMPTY, cmds[0]);
    var s2 := Step(s1, cmds[1]);
    var s3 := Step(s2, cmds[2]);
    var s4 := Step(s3, cmds[3]);
    assert cmds[1..][1..] == cmds[2..] && cmds[2..][1..] == cmds[3..] && cmds[3..][1..] == [];
    assert Run(s4, []) == s4 && Run(s3, cmds[3..]) == s4 && Run(s2, cmds[2..]) == s4 && Run(s1, cmds[1..]) == s4;
  }

  /** Approval `b` is open for `task` and a rejection of `id` leaves it open; the second reading of the clock may lie
      before the first. */
  predicate StaysOpen(s: Store, b: nat, id: nat, task: nat, now: int, later: int) {
    OpenFor(s, b, task) && (b == id ==> later < s.approvals[id].expiresAt <= now)
  }

  /** `reject` looks at expiry before status, and neither of its paths asks what else the task waits for.  Exactly when
      the rejected approval is of that task and has expired, however long ago it was closed, or is still pending, a
      task parked for another open approval is let go while that one stays open. */
  lemma RejectFreesATaskStillGatedIff(s: Store, id: nat, gate: Binding, task: nat, now: int, later: int)
    requires IsParked(s, task)
    ensures var t := Run(s, RejectCommand(s, id, gate, now, later));
            !IsParked(t, task) && (exists b :: OpenFor(t, b, task)) <==>
              && id in s.approvals && s.approvals[id].gate == gate && gate.task == task
              && (s.approvals[id].expiresAt <= now || s.approvals[id].status == PendingApproval)
              && exists b :: StaysOpen(s, b, id, task, now, later)
  {
    hide Step, Run;
    var t := Run(s, RejectCommand(s, id, gate, now, later));
    RejectEffect(s, id, gate, now, later);
    if id in s.approvals && s.approvals[id].gate == gate && gate.task == task
       && (s.approvals[id].expiresAt <= now || s.approvals[id].status == PendingApproval) {
      if b :| OpenFor(t, b, task) {
        assert StaysOpen(s, b, id, task, now, later);
      }
      if b :| StaysOpen(s, b, id, task, now, later) {
        assert OpenFor(t, b, task);
      }
    }
  }

  /** What `reject` does: nothing, or it lets the task of that gate go and closes that approval, unless the clock went
      back below its expiry. */
  lemma RejectEffect(s: Store, id: nat, gate: Binding, now: int, later: int)
    ensures var t := Run(s, RejectCommand(s, id, gate, now, later));
            if id in s.approvals && s.approvals[id].gate == gate && (s.approvals[id].expiresAt <= now || s.approvals[id].status == PendingApproval) then
              && id in t.approvals && t.approvals == s.approvals[id := s.approvals[id].(status := t.approvals[id].status)]
              && (IsOpen(t.approvals[id]) <==> IsOpen(s.approvals[id]) && later < s.approvals[id].expiresAt <= now)
              && !IsParked(t, gate.task) && (forall k :: k != gate.task ==> IsParked(t, k) == IsParked(s, k))
            else t == s
  {
    var c := RejectCommand(s, id, gate, now, later);
    assert c[1..] == [];
    assert Run(Step(s, c[0]), []) == Step(s, c[0]);
  }

  const FIRST := Binding(0, 0, 0)
  const SECOND := Binding(0, 1, 0)

  /** A task whose first approval was executed and which now waits for its second. */
  lemma ExecutedThenAskedAgain() returns (cmds: seq<Command>)
    ensures var s := Run(EMPTY, cmds);
            && s.approvals == map[0 := Approval(FIRST, FIRST, Consumed, 100, Some(0)), 1 := Approval(SECOND, SECOND, PendingApproval, 1000, None)]
            && s.tasks == map[0 := Task(OwnerApprovalRequired, Some(FinalDecision))]
  {
    hide IsAllowed, Run;
    cmds := [OtherWork(0, Task(FinalDecision, None)), RequestAction(0, FIRST, 100), CoreApprove(0, FIRST, 1),
             ExecuteApproved(0, FIRST, 0, true, 2), RequestAction(1, SECOND, 1000)];
    FinalDecisionResumes();
    var s1 := Step(EMPTY, cmds[0]);
    var s2 := Step(s1, cmds[1]);
    var s3 := Step(s2, cmds[2]);
    var s4 := Step(s3, cmds[3]);
    RunFive(EMPTY, cmds);
  }

  lemma RunFive(s: Store, cmds: seq<Command>)
    requires |cmds| == 5
    ensures Run(s, cmds) == Step(Step(Step(Step(Step(s, cmds[0]), cmds[1]), cmds[2]), cmds[3]), cmds[4])
  {
    hide Step;
    var s1 := Step(s, cmds[0]);
    var s2 := Step(s1, cmds[1]);
    var s3 := Step(s2, cmds[2]);
    var s4 := Step(s3, cmds[3]);
    var s5 := Step(s4, cmds[4]);
    assert cmds[1..][1..] == cmds[2..] && cmds[2..][1..] == cmds[3..] && cmds[3..][1..] == cmds[4..] && cmds[4..][1..] == [];
    assert Run(s5, []) == s5 && Run(s4, cmds[4..]) == s5 && Run(s3, cmds[3..]) == s5 && Run(s2, cmds[2..]) == s5 && Run(s1, cmds[1..]) == s5;
  }

  /** Such a store is reachable, and rejecting the approval executed long ago lets the task go. */
  lemma RejectingAnExecutedApprovalFreesTheTask() returns (cmds: seq<Command>)
    ensures var s := Run(EMPTY, cmds);
            var t := Run(s, RejectCommand(s, 0, FIRST, 200, 200));
            && IsParked(s, 0) && OpenFor(s, 1, 0) && 0 in s.approvals && s.approvals[0].status == Consumed
            && !IsParked(t, 0) && exists b :: OpenFor(t, b, 0)
  {
    hide Run;
    cmds := ExecutedThenAskedAgain();
    var s := Run(EMPTY, cmds);
    assert StaysOpen(s, 1, 0, 0, 200, 200);
    RejectFreesATaskStillGatedIff(s, 0, FIRST, 0, 200, 200);
  }

  lemma FinalDecisionResumes()
    ensures IsActionable(FinalDecision) && IsAllowed(OwnerApprovalRequired, FinalDecision, Some(FinalDecision))
  {
  }

  // ------------------------------------------------------------------ the public owner commands

  /** `approve`: the decision, or, when a pending approval turns out expired, its expiry in a second transaction. */
  function ApproveCommand(s: Store, id: nat, gate: Binding, now: int, later: int): seq<Command> {
    if id in s.approvals && s.approvals[id].gate == gate && s.approvals[id].status == PendingApproval && s.approvals[id].expiresAt <= now
    then [Release(id, later)] else [CoreApprove(id, gate, now)]
  }

  /** `reject`: expiry is looked at before the status. */
  function RejectCommand(s: Store, id: nat, gate: Binding, now: int, later: int): seq<Command> {
    if id in s.approvals && s.approvals[id].gate == gate && s.approvals[id].expiresAt <= now then [Release(id, later)]
    else [CoreReject(id, gate, now)]
  }

  function ExecuteCommand(s: Store, id: nat, gate: Binding, execution: nat, permitted: bool, now: int, later: int): seq<Command> {
    if id in s.approvals && s.approvals[id].gate == gate && s.approvals[id].status == Approved && s.approvals[id].expiresAt <= now
    then [Release(id, later)] else [ExecuteApproved(id, gate, execution, permitted, now)]
  }
}
