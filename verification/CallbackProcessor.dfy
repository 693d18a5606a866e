/**
 The callback processor and the owner commands as they change stored rows (argent_core/approval_processor.py,
 argent_core/core.py), each proved against the functions of module OwnerGate.
 */
module CallbackProcessor {
  import opened Wrappers
  import opened StateMachine
  import opened OwnerGate
  import opened GateLaws

  class ApprovalStore {
    var tasks: map<nat, Task>
    var approvals: map<nat, Approval>
    var challenges: map<nat, Challenge>
    var executions: map<nat, nat>
    var log: map<nat, LogRow>
    var cursor: nat

    ghost function Abs(): Store
      reads this
    {
      Store(tasks, approvals, challenges, executions, log, cursor)
    }

    constructor ()
      ensures Abs() == EMPTY
    {
      tasks, approvals, challenges, executions, log, cursor := map[], map[], map[], map[], map[], 0;
    }

    // -- row operations of the store

    /** `_insert_update_log`: the primary key is the duplicate gate. */
    method InsertLog(update: nat, row: LogRow) returns (inserted: bool)
      modifies this`log
      ensures inserted <==> update !in old(log)
      ensures log == if inserted then old(log)[update := row] else old(log)
    {
      inserted := update !in log;
      if inserted {
        log := log[update := row];
      }
    }

    method Advance(update: nat)
      modifies this`cursor
      ensures Abs() == AdvanceCursor(old(Abs()), update)
      ensures old(cursor) <= cursor && (old(cursor) <= MAX_INT ==> cursor <= MAX_INT)
      ensures update < cursor || cursor >= MAX_INT
    {
      var next := if update + 1 <= MAX_INT then update + 1 else MAX_INT;
      if cursor < next {
        cursor := next;
      }
    }

    method EndChallengeRow(token: nat, status: ChallengeStatus, update: Option<nat>) returns (ended: bool)
      requires token in challenges
      modifies this`challenges
      ensures Abs() == EndChallenge(old(Abs()), token, status, update) && ended == old(challenges[token].status == Issued)
    {
      ended := challenges[token].status == Issued;
      if ended {
        challenges := challenges[token := challenges[token].(status := status, consumedUpdate := update)];
      }
    }

    method MarkApprovedRow(id: nat, now: int) returns (marked: bool)
      modifies this`approvals
      ensures marked == CanApprove(old(Abs()), id, now)
      ensures Abs() == if marked then MarkApproved(old(Abs()), id) else old(Abs())
    {
      marked := id in approvals && approvals[id].status == PendingApproval && approvals[id].expiresAt > now;
      if marked {
        approvals := approvals[id := approvals[id].(status := Approved)];
      }
    }

    method MarkRejectedRow(id: nat) returns (marked: bool)
      modifies this`approvals, this`tasks
      ensures marked == CanReject(old(Abs()), id)
      ensures Abs() == if marked then MarkRejected(old(Abs()), id) else old(Abs())
    {
      marked := id in approvals && approvals[id].status == PendingApproval;
      if marked {
        approvals := approvals[id := approvals[id].(status := RejectedApproval)];
        var task := approvals[id].gate.task;
        if task in tasks && tasks[task].state == OwnerApprovalRequired {
          tasks := tasks[task := Task(Blocked, None)];
        }
      }
    }

    method ExpireAndReleaseRow(id: nat, now: int)
      modifies this`approvals, this`tasks
      ensures Abs() == ExpireAndRelease(old(Abs()), id, now)
    {
      if id !in approvals {
        return;
      }
      if approvals[id].status in {PendingApproval, Approved} && approvals[id].expiresAt <= now {
        approvals := approvals[id := approvals[id].(status := ExpiredApproval)];
      }
      var task := approvals[id].gate.task;
      if task !in tasks || tasks[task].state != OwnerApprovalRequired {
        return;
      }
      var resume := tasks[task].resume;
      tasks := tasks[task := Task(if IsValidResumeTarget(resume) then resume.value else Blocked, None)];
    }

    // -- the processor

    /** Finishes the log row of this update and moves the cursor past it. */
    method Finish(update: nat, row: LogRow)
      modifies this`log, this`cursor
      ensures Abs() == Logged(old(Abs()), update, row)
    {
      log := log[update := row];
      Advance(update);
    }

    method PersistTerminalRow(update: nat, code: LogCode, result: Outcome) returns (outcome: Outcome)
      modifies this`log, this`cursor
      ensures (Abs(), outcome) == PersistTerminal(old(Abs()), update, code, result)
    {
      if update < cursor {
        var stale := InsertLog(update, LogRow(None, None, None, StaleUpdateCode));
        return if stale then StaleUpdate else DuplicateUpdate;
      }
      var inserted := InsertLog(update, LogRow(None, None, None, code));
      if !inserted {
        return DuplicateUpdate;
      }
      Advance(update);
      outcome := result;
    }

    /** Steps 6 to 12: the approval behind an open challenge, and the decision in the same transaction.  A decision
        that fails rolls everything back. */
    method DecideOnApproval(approve: bool, token: nat, update: nat, now: int, later: int) returns (outcome: Outcome)
      requires token in challenges && challenges[token].status == Issued
      modifies this
      ensures (Abs(), outcome) == DecideOpen(old(Abs()), approve, token, update, now, later)
    {
      var c := challenges[token];
      if c.approval !in approvals {
        var _ := EndChallengeRow(token, Invalidated, None);
        Finish(update, LogRow(None, Some(token), None, BindingMismatchCode));
        return GateChanged;
      }
      var a := approvals[c.approval];
      if a.binding != a.gate || c.binding != a.gate || c.task != a.gate.task {
        var _ := EndChallengeRow(token, Invalidated, None);
        Finish(update, LogRow(None, Some(token), Some(c.approval), BindingMismatchCode));
        return GateChanged;
      }
      if a.status != PendingApproval {
        Finish(update, LogRow(None, Some(token), Some(c.approval), ApprovalNotPendingCode));
        return GateDecided;
      }
      if a.expiresAt <= now {
        ExpireAndReleaseRow(c.approval, later);
        Finish(update, LogRow(None, Some(token), Some(c.approval), ExpiredApprovalCode));
        return ExpiredOutcome;
      }
      var before := challenges;
      var consumed := EndChallengeRow(token, if approve then ConsumedApproved else ConsumedRejected, Some(update));
      var decided: bool;
      if approve {
        decided := MarkApprovedRow(c.approval, later);
      } else {
        decided := MarkRejectedRow(c.approval);
      }
      if !decided {
        challenges := before;
        return ErrorOutcome;
      }
      Finish(update, LogRow(Some(approve), Some(token), Some(c.approval), if approve then ApprovedCode else RejectedCode));
      outcome := if approve then ApprovedOutcome else RejectedOutcome;
    }

    method DecideInTransaction(approve: bool, token: nat, update: nat, messageDate: int, now: int, later: int) returns (outcome: Outcome)
      modifies this
      ensures (Abs(), outcome) == Decide(old(Abs()), approve, token, update, messageDate, now, later)
    {
      hide DecideOpen;
      if update < cursor {
        var stale := InsertLog(update, LogRow(None, None, None, StaleUpdateCode));
        return if stale then StaleUpdate else DuplicateUpdate;
      }
      if update in log {
        return DuplicateUpdate;
      }
      if token !in challenges {
        Finish(update, LogRow(None, None, None, UnknownTokenCode));
        return UnknownChallenge;
      }
      var c := challenges[token];
      if c.status != Issued {
        var (result, code) := TerminalOutcome(c.status);
        Finish(update, LogRow(None, Some(token), Some(c.approval), code));
        return result;
      }
      if c.expiresAt <= now {
        var _ := EndChallengeRow(token, ExpiredChallenge, None);
        Finish(update, LogRow(None, Some(token), None, ExpiredTokenCode));
        return ExpiredOutcome;
      }
      if messageDate < c.createdAt {
        Finish(update, LogRow(None, Some(token), None, StaleMessageCode));
        return StaleMessage;
      }
      if messageDate >= c.expiresAt {
        var _ := EndChallengeRow(token, ExpiredChallenge, None);
        Finish(update, LogRow(None, Some(token), None, ExpiredTokenCode));
        return ExpiredOutcome;
      }
      if messageDate > now + FUTURE_SKEW_BOUND {
        Finish(update, LogRow(None, Some(token), None, StaleMessageCode));
        return StaleMessage;
      }
      outcome := DecideOnApproval(approve, token, update, now, later);
    }

    /** `process_callback`: well-formedness, identity, grammar, then details or the decision. */
    method Process(cb: Callback, now: int, later: int) returns (outcome: Outcome)
      modifies this
      ensures (Abs(), outcome) == ProcessCallback(old(Abs()), cb, now, later)
      ensures !FromOwner(cb) ==> tasks == old(tasks) && approvals == old(approvals) && challenges == old(challenges) && executions == old(executions)
                                 && outcome != ApprovedOutcome && outcome != RejectedOutcome
      ensures FromOwner(cb) && Inv(old(Abs())) ==>
                (outcome in {ApprovedOutcome, RejectedOutcome} <==> Decisive(old(Abs()), cb, now, later))
    {
      hide Decide, PersistTerminal, Decisive, Inv;
      if !FromOwner(cb) {
        OnlyTheOwnerDecides(Abs(), cb, now, later);
      } else if Inv(Abs()) {
        DecidesIff(Abs(), cb, now, later);
      }
      if !(0 <= cb.updateId <= MAX_INT) {
        return MalformedOutcome;
      }
      if cb.updateId == MAX_INT || !(0 <= cb.messageDate <= MAX_INT) {
        outcome := PersistTerminalRow(cb.updateId, MalformedCode, MalformedOutcome);
        return;
      }
      if !cb.chatOk {
        outcome := PersistTerminalRow(cb.updateId, WrongChatCode, WrongChat);
        return;
      }
      if !cb.senderOk {
        outcome := PersistTerminalRow(cb.updateId, SpoofedSenderCode, SpoofedSender);
        return;
      }
      if cb.parsed.None? {
        outcome := PersistTerminalRow(cb.updateId, MalformedCode, MalformedOutcome);
        return;
      }
      var (action, token) := cb.parsed.value;
      if action == ShowDetails {
        return if token in challenges then Details else UnknownChallenge;
      }
      outcome := DecideInTransaction(action == Approve, token, cb.updateId, cb.messageDate, now, later);
    }

    // -- the owner commands

    /** `approve`: when a pending approval turns out expired, it is expired in a second transaction. */
    method ApproveAsOwner(id: nat, gate: Binding, now: int, later: int) returns (ok: bool)
      modifies this`approvals, this`tasks
      ensures Abs() == Run(old(Abs()), ApproveCommand(old(Abs()), id, gate, now, later))
      ensures ok <==> CanApprove(old(Abs()), id, now) && old(approvals)[id].gate == gate
      ensures ok ==> id in approvals && approvals[id].status == Approved
    {
      RunOne(Abs(), ApproveCommand(Abs(), id, gate, now, later));
      if id !in approvals || approvals[id].gate != gate || approvals[id].status != PendingApproval {
        return false;
      }
      if approvals[id].expiresAt <= now {
        ExpireAndReleaseRow(id, later);
        return false;
      }
      ok := MarkApprovedRow(id, now);
    }

    /** `reject`: expiry is looked at before the status. */
    method RejectAsOwner(id: nat, gate: Binding, now: int, later: int) returns (ok: bool)
      modifies this`approvals, this`tasks
      ensures Abs() == Run(old(Abs()), RejectCommand(old(Abs()), id, gate, now, later))
      ensures ok <==> CanReject(old(Abs()), id) && old(approvals)[id].gate == gate && old(approvals)[id].expiresAt > now
      ensures ok ==> id in approvals && approvals[id].status == RejectedApproval
                     && (IsParked(old(Abs()), gate.task) ==> tasks == old(tasks)[gate.task := Task(Blocked, None)])
    {
      RunOne(Abs(), RejectCommand(Abs(), id, gate, now, later));
      if id !in approvals || approvals[id].gate != gate {
        return false;
      }
      if approvals[id].expiresAt <= now {
        ExpireAndReleaseRow(id, later);
        return false;
      }
      ok := MarkRejectedRow(id);
    }

    /** The approval is consumed with its execution record, and its parked task goes back to where it was. */
    method ConsumeRow(id: nat, execution: nat)
      requires id in approvals
      modifies this`approvals, this`executions, this`tasks
      ensures Abs() == ConsumeWithExecution(old(Abs()), id, execution)
    {
      var task := approvals[id].gate.task;
      executions := executions[execution := id];
      approvals := approvals[id := approvals[id].(status := Consumed, execution := Some(execution))];
      if task in tasks && tasks[task].state == OwnerApprovalRequired && tasks[task].resume.Some? {
        tasks := tasks[task := Task(tasks[task].resume.value, None)];
      }
    }

    /** `execute_approved`: an approved approval found expired is expired in a second transaction; otherwise it is
        consumed with its execution record and the task goes back to where it was. */
    method ExecuteAsOwner(id: nat, gate: Binding, execution: nat, permitted: bool, now: int, later: int) returns (ok: bool)
      modifies this`approvals, this`executions, this`tasks
      ensures Abs() == Run(old(Abs()), ExecuteCommand(old(Abs()), id, gate, execution, permitted, now, later))
      ensures ok <==>
                && id in old(approvals) && old(approvals)[id].gate == gate && old(approvals)[id].status == Approved && now < old(approvals)[id].expiresAt
                && permitted && execution !in old(executions)
                && (IsParked(old(Abs()), gate.task) && old(tasks)[gate.task].resume.Some? ==>
                      IsAllowed(OwnerApprovalRequired, old(tasks)[gate.task].resume.value, old(tasks)[gate.task].resume))
      ensures ok && IsParked(old(Abs()), gate.task) && old(tasks)[gate.task].resume.Some? ==>
                tasks == old(tasks)[gate.task := Task(old(tasks)[gate.task].resume.value, None)]
      ensures ok ==> id in old(approvals) && id in approvals && approvals[id] == old(approvals)[id].(status := Consumed, execution := Some(execution))
                     && executions == old(executions)[execution := id]
      ensures !ok ==> executions == old(executions) && approvals.Keys == old(approvals).Keys
                      && forall a :: a in approvals ==> approvals[a].status == old(approvals)[a].status || approvals[a].status == ExpiredApproval
    {
      RunOne(Abs(), ExecuteCommand(Abs(), id, gate, execution, permitted, now, later));
      if id !in approvals || approvals[id].gate != gate || approvals[id].status != Approved {
        return false;
      }
      if approvals[id].expiresAt <= now {
        ExpireAndReleaseRow(id, later);
        return false;
      }
      if !permitted || execution in executions {
        return false;
      }
      if gate.task in tasks && tasks[gate.task].state == OwnerApprovalRequired && tasks[gate.task].resume.Some?
         && !IsAllowed(OwnerApprovalRequired, tasks[gate.task].resume.value, tasks[gate.task].resume) {
        return false;
      }
      ConsumeRow(id, execution);
      ok := true;
    }
  }

  lemma RunOne(s: Store, cmds: seq<Command>)
    requires |cmds| == 1
    ensures Run(s, cmds) == Step(s, cmds[0])
  {
    assert cmds[1..] == [];
    assert Run(Step(s, cmds[0]), []) == Step(s, cmds[0]);
  }
}
