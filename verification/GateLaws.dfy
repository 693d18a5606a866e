/** Who may decide at the owner gate, and what a decision does. */
module GateLaws {
  import opened Wrappers
  import opened StateMachine
  import opened OwnerGate

  // ------------------------------------------------------------------ identity first

  /** From the owner, in the owner's chat, well-formed, and a decision. */
  predicate FromOwner(cb: Callback) {
    && 0 <= cb.updateId < MAX_INT && 0 <= cb.messageDate <= MAX_INT && cb.chatOk && cb.senderOk
    && cb.parsed.Some? && cb.parsed.value.0 != ShowDetails
  }

  /** A callback that is not the owner's decision touches no task, approval, challenge or execution, writes no decision row,
      and is never answered as one. */
  lemma OnlyTheOwnerDecides(s: Store, cb: Callback, now: int, later: int)
    requires !FromOwner(cb)
    ensures var (t, outcome) := ProcessCallback(s, cb, now, later);
            && t.tasks == s.tasks && t.approvals == s.approvals && t.challenges == s.challenges && t.executions == s.executions
            && outcome != ApprovedOutcome && outcome != RejectedOutcome
            && forall u :: u in t.log && u !in s.log ==> t.log[u].decision == None
  {
    hide Decide;
  }

  /** The first identity check that fails is what is logged and answered. */
  lemma StrangersAreLogged(s: Store, cb: Callback, now: int, later: int)
    requires 0 <= cb.updateId < MAX_INT && 0 <= cb.messageDate <= MAX_INT && s.cursor <= cb.updateId && cb.updateId as nat !in s.log
    requires !cb.chatOk || !cb.senderOk
    ensures var (t, outcome) := ProcessCallback(s, cb, now, later);
            && t.log == s.log[cb.updateId := LogRow(None, None, None, if !cb.chatOk then WrongChatCode else SpoofedSenderCode)]
            && outcome == (if !cb.chatOk then WrongChat else SpoofedSender) && t.cursor == cb.updateId + 1
  {
    hide Decide;
  }

  // ------------------------------------------------------------------ exactly when a callback decides

  /** The update is new, and the challenge is open and inside its window. */
  predicate Timely(s: Store, cb: Callback, now: int)
    requires FromOwner(cb)
  {
    && s.cursor <= cb.updateId && cb.updateId as nat !in s.log && cb.parsed.value.1 in s.challenges
    && var c := s.challenges[cb.parsed.value.1];
       && c.status == Issued && now < c.expiresAt
       && c.createdAt <= cb.messageDate < c.expiresAt && cb.messageDate <= now + 300
  }

  predicate Decisive(s: Store, cb: Callback, now: int, later: int)
    requires FromOwner(cb)
  {
    && Timely(s, cb, now)
    && var id := s.challenges[cb.parsed.value.1].approval;
       id in s.approvals && s.approvals[id].status == PendingApproval && (cb.parsed.value.0 == Approve ==> later < s.approvals[id].expiresAt)
  }

  /** The owner's decision takes effect exactly when the update is new, its challenge open and inside its window, and the
      approval pending, and for an approval unexpired at the second reading of the clock too.  It then closes challenge
      and approval together, and a rejection blocks the parked task. */
  lemma DecidesIff(s: Store, cb: Callback, now: int, later: int)
    requires Inv(s) && FromOwner(cb)
    ensures var (t, outcome) := ProcessCallback(s, cb, now, later);
            var approve := cb.parsed.value.0 == Approve;
            && (outcome in {ApprovedOutcome, RejectedOutcome} <==> Decisive(s, cb, now, later))
            && (Decisive(s, cb, now, later) ==>
                  var token := cb.parsed.value.1;
                  var id := s.challenges[token].approval;
                  && outcome == (if approve then ApprovedOutcome else RejectedOutcome)
                  && t.approvals == s.approvals[id := s.approvals[id].(status := if approve then Approved else RejectedApproval)]
                  && t.challenges == s.challenges[token := s.challenges[token].(status := if approve then ConsumedApproved else ConsumedRejected,
                                                                               consumedUpdate := Some(cb.updateId as nat))]
                  && t.tasks == (if !approve && IsParked(s, s.approvals[id].gate.task) then s.tasks[s.approvals[id].gate.task := Task(Blocked, None)] else s.tasks)
                  && cb.updateId as nat in t.log && t.log[cb.updateId as nat].decision == Some(approve)
                  && t.log[cb.updateId as nat].approval == Some(id) && t.cursor == cb.updateId + 1)
            && (!Decisive(s, cb, now, later) ==> t.approvals == s.approvals && t.tasks == s.tasks)
  {
    hide Inv, DecideOpen, Logged, EndChallenge;
    LoggingFrames();
    EndingFrames();
    var approve, token := cb.parsed.value.0 == Approve, cb.parsed.value.1;
    if token in s.challenges && s.challenges[token].status == Issued && now < s.challenges[token].expiresAt {
      OpenDecidesIff(s, approve, token, cb.updateId, now, later);
    }
  }

  lemma LoggingFrames()
    ensures forall x: Store, u: nat, row: LogRow ::
              var t := Logged(x, u, row);
              t.approvals == x.approvals && t.tasks == x.tasks && t.challenges == x.challenges && t.executions == x.executions
  {
  }

  lemma EndingFrames()
    ensures forall x: Store, token: nat, status, u | token in x.challenges ::
              var t := EndChallenge(x, token, status, u); t.approvals == x.approvals && t.tasks == x.tasks
  {
  }

  lemma OpenDecidesIff(s: Store, approve: bool, token: nat, update: nat, now: int, later: int)
    requires Inv(s) && token in s.challenges && s.challenges[token].status == Issued && now < s.challenges[token].expiresAt
    requires update < MAX_INT
    ensures var (t, outcome) := DecideOpen(s, approve, token, update, now, later);
            var id := s.challenges[token].approval;
            && id in s.approvals
            && if s.approvals[id].status == PendingApproval && (approve ==> later < s.approvals[id].expiresAt) then
                 && outcome == (if approve then ApprovedOutcome else RejectedOutcome)
                 && t.approvals == s.approvals[id := s.approvals[id].(status := if approve then Approved else RejectedApproval)]
                 && t.challenges == s.challenges[token := s.challenges[token].(status := if approve then ConsumedApproved else ConsumedRejected,
                                                                              consumedUpdate := Some(update))]
                 && t.tasks == (if !approve && IsParked(s, s.approvals[id].gate.task) then s.tasks[s.approvals[id].gate.task := Task(Blocked, None)] else s.tasks)
                 && t.log == s.log[update := LogRow(Some(approve), Some(token), Some(id), if approve then ApprovedCode else RejectedCode)]
                 && t.cursor == (if s.cursor >= update + 1 then s.cursor else update + 1)
               else
                 && outcome != ApprovedOutcome && outcome != RejectedOutcome
                 && t.approvals == s.approvals && t.tasks == s.tasks
  {
    hide Inv;
    ApprovalOutlivesChallenge(s, token, now);
  }

  lemma RowsAreLogged()
    ensures forall x: Store, u: nat, row: LogRow :: u in Logged(x, u, row).log && Logged(x, u, row).log[u] == row
  {
  }

  lemma OpenIsClosed(s: Store, token: nat)
    requires token in s.challenges && s.challenges[token].status == Issued
    ensures EndChallenge(s, token, ExpiredChallenge, None).challenges ==
            s.challenges[token := s.challenges[token].(status := ExpiredChallenge, consumedUpdate := None)]
  {
  }

  /** What an owner hears who comes with an unknown token, a used one, too late, or with a message from outside the window; only
      a challenge that ran out is closed on the way. */
  lemma UntimelyIsAnswered(s: Store, cb: Callback, now: int, later: int)
    requires FromOwner(cb) && s.cursor <= cb.updateId && cb.updateId as nat !in s.log
    ensures var (t, outcome) := ProcessCallback(s, cb, now, later);
            var token := cb.parsed.value.1;
            var code := (c: LogCode) => cb.updateId as nat in t.log && t.log[cb.updateId as nat].code == c;
            if token !in s.challenges then outcome == UnknownChallenge && code(UnknownTokenCode) && t.challenges == s.challenges
            else
              var c := s.challenges[token];
              && (c.status in {ConsumedApproved, ConsumedRejected} ==> outcome == UsedToken && code(UsedTokenCode) && t.challenges == s.challenges)
              && (c.status == ExpiredChallenge ==> outcome == ExpiredOutcome && code(ExpiredTokenCode) && t.challenges == s.challenges)
              && (c.status == Invalidated ==> outcome == UnknownChallenge && t.challenges == s.challenges)
              && (c.status == Issued && (c.expiresAt <= now || (c.createdAt <= cb.messageDate && c.expiresAt <= cb.messageDate)) ==>
                    outcome == ExpiredOutcome && code(ExpiredTokenCode)
                    && t.challenges == s.challenges[token := c.(status := ExpiredChallenge, consumedUpdate := None)])
              && (c.status == Issued && now < c.expiresAt && (cb.messageDate < c.createdAt || (cb.messageDate < c.expiresAt && now + 300 < cb.messageDate)) ==>
                    outcome == StaleMessage && code(StaleMessageCode) && t.challenges == s.challenges)
  {
    hide DecideOpen, Logged, EndChallenge;
    LoggingFrames();
    RowsAreLogged();
    var token := cb.parsed.value.1;
    if token in s.challenges && s.challenges[token].status == Issued {
      OpenIsClosed(s, token);
    }
  }

  // ------------------------------------------------------------------ one open approval per gate, one open challenge per approval

  ghost predicate OneOpenEach(s: Store) {
    && (forall a, b | a in s.approvals && b in s.approvals && s.approvals[a].gate == s.approvals[b].gate
                      && IsOpen(s.approvals[a]) && IsOpen(s.approvals[b]) :: a == b)
    && (forall c, d | c in s.challenges && d in s.challenges && s.challenges[c].approval == s.challenges[d].approval
                      && s.challenges[c].status == s.challenges[d].status == Issued :: c == d)
  }

  /** Nothing reopens and nothing new is open: what is open afterwards was open before. */
  ghost predicate OpensNothing(s: Store, t: Store) {
    && (forall a :: a in t.approvals && IsOpen(t.approvals[a]) ==>
          a in s.approvals && IsOpen(s.approvals[a]) && s.approvals[a].gate == t.approvals[a].gate)
    && (forall c :: c in t.challenges && t.challenges[c].status == Issued ==>
          c in s.challenges && s.challenges[c].status == Issued && s.challenges[c].approval == t.challenges[c].approval)
  }

  lemma OpensTrans(s: Store, t: Store, u: Store)
    requires OpensNothing(s, t) && OpensNothing(t, u)
    ensures OpensNothing(s, u)
  {
  }

  lemma SameOpens(s: Store, t: Store)
    requires t.approvals == s.approvals && t.challenges == s.challenges
    ensures OpensNothing(s, t)
  {
  }

  lemma EndOpens(s: Store, token: nat, status: ChallengeStatus, u: Option<nat>)
    requires token in s.challenges && status != Issued
    ensures OpensNothing(s, EndChallenge(s, token, status, u))
  {
  }

  lemma ExpireOpens(s: Store, id: nat, now: int)
    ensures OpensNothing(s, ExpireAndRelease(s, id, now)) && ExpireAndRelease(s, id, now).challenges == s.challenges
  {
  }

  lemma MarkOpens(s: Store, id: nat)
    requires id in s.approvals && s.approvals[id].status == PendingApproval
    ensures OpensNothing(s, MarkApproved(s, id)) && OpensNothing(s, MarkRejected(s, id))
  {
  }

  lemma DecideOpensNothing(s: Store, approve: bool, token: nat, update: nat, messageDate: int, now: int, later: int)
    ensures OpensNothing(s, Decide(s, approve, token, update, messageDate, now, later).0)
  {
    hide DecideOpen, Logged, EndChallenge, OpensNothing;
    LoggingFrames();
    var t := Decide(s, approve, token, update, messageDate, now, later).0;
    if t.approvals == s.approvals && t.challenges == s.challenges {
      SameOpens(s, t);
    } else {
      EndOpens(s, token, ExpiredChallenge, None);
      SameOpens(EndChallenge(s, token, ExpiredChallenge, None), Logged(EndChallenge(s, token, ExpiredChallenge, None), update, LogRow(None, Some(token), None, ExpiredTokenCode)));
      OpensTrans(s, EndChallenge(s, token, ExpiredChallenge, None), Logged(EndChallenge(s, token, ExpiredChallenge, None), update, LogRow(None, Some(token), None, ExpiredTokenCode)));
      OpenOpensNothing(s, approve, token, update, now, later);
    }
  }

  lemma OpenOpensNothing(s: Store, approve: bool, token: nat, update: nat, now: int, later: int)
    requires token in s.challenges
    ensures OpensNothing(s, DecideOpen(s, approve, token, update, now, later).0)
  {
    hide Logged, EndChallenge, ExpireAndRelease, MarkApproved, MarkRejected, OpensNothing;
    LoggingFrames();
    EndingFrames();
    var t := DecideOpen(s, approve, token, update, now, later).0;
    var id := s.challenges[token].approval;
    var e := if approve then ConsumedApproved else ConsumedRejected;
    var x, y := EndChallenge(s, token, Invalidated, None), EndChallenge(s, token, e, Some(update));
    EndOpens(s, token, Invalidated, None);
    EndOpens(s, token, e, Some(update));
    ExpireOpens(s, id, later);
    if t.approvals == x.approvals && t.challenges == x.challenges {
      SameOpens(x, t);
      OpensTrans(s, x, t);
    } else if t.approvals == s.approvals && t.challenges == s.challenges {
      SameOpens(s, t);
    } else if id in s.approvals && s.approvals[id].status == PendingApproval && s.approvals[id].expiresAt > now {
      MarkOpens(y, id);
      var z := if approve then MarkApproved(y, id) else MarkRejected(y, id);
      SameOpens(z, t);
      OpensTrans(s, y, z);
      OpensTrans(s, z, t);
    } else {
      var z := ExpireAndRelease(s, id, later);
      SameOpens(z, t);
      OpensTrans(s, z, t);
    }
  }

  lemma PersistOpensNothing(s: Store, update: nat, code: LogCode, outcome: Outcome)
    ensures OpensNothing(s, PersistTerminal(s, update, code, outcome).0)
  {
    SameOpens(s, PersistTerminal(s, update, code, outcome).0);
  }

  lemma CallbackOpensNothing(s: Store, cb: Callback, now: int, later: int)
    ensures OpensNothing(s, ProcessCallback(s, cb, now, later).0)
  {
    hide Decide, PersistTerminal, OpensNothing;
    SameOpens(s, s);
    if 0 <= cb.updateId {
      PersistOpensNothing(s, cb.updateId, MalformedCode, MalformedOutcome);
      PersistOpensNothing(s, cb.updateId, WrongChatCode, WrongChat);
      PersistOpensNothing(s, cb.updateId, SpoofedSenderCode, SpoofedSender);
      if cb.parsed.Some? {
        DecideOpensNothing(s, cb.parsed.value.0 == Approve, cb.parsed.value.1, cb.updateId, cb.messageDate, now, later);
      }
    }
  }

  lemma StepKeepsOneOpen(s: Store, cmd: Command)
    requires OneOpenEach(s)
    ensures OneOpenEach(Step(s, cmd))
  {
    var t := Step(s, cmd);
    if cmd.RequestAction? || cmd.CreateChallenge? {
      NewKeepsOneOpen(s, cmd);
    } else {
      OtherOpensNothing(s, cmd);
      NothingNew(s, t);
    }
  }

  lemma NewKeepsOneOpen(s: Store, cmd: Command)
    requires OneOpenEach(s) && (cmd.RequestAction? || cmd.CreateChallenge?)
    ensures OneOpenEach(Step(s, cmd))
  {
  }

  lemma OtherOpensNothing(s: Store, cmd: Command)
    requires !cmd.RequestAction? && !cmd.CreateChallenge?
    ensures OpensNothing(s, Step(s, cmd))
  {
    hide OpensNothing, ProcessCallback, ExpireAndRelease, EndChallenge, MarkApproved, MarkRejected, ConsumeWithExecution, IsAllowed;
    var t := Step(s, cmd);
    SameOpens(s, s);
    match cmd
    case Process(cb, now, later) => CallbackOpensNothing(s, cb, now, later);
    case Release(id, now) => ExpireOpens(s, id, now);
    case SweepChallenge(token, status) => if t != s { EndOpens(s, token, status, None); }
    case OtherWork(_, _) => SameOpens(s, t);
    case BrokerConsume(id, now) => ConsumedOpens(s, t, id);
    case ExecuteApproved(id, _, execution, _, _) => if t != s { ExecutionOpens(s, id, execution); }
    case CoreApprove(id, _, _) => if t != s { MarkOpens(s, id); }
    case CoreReject(id, _, _) => if t != s { MarkOpens(s, id); }
  }

  lemma ConsumedOpens(s: Store, t: Store, id: nat)
    requires t == s || (id in s.approvals && t == SetApproval(s, id, s.approvals[id].(status := Consumed)))
    ensures OpensNothing(s, t)
  {
  }

  lemma ExecutionOpens(s: Store, id: nat, execution: nat)
    requires id in s.approvals
    ensures OpensNothing(s, ConsumeWithExecution(s, id, execution))
  {
  }

  lemma NothingNew(s: Store, t: Store)
    requires OneOpenEach(s) && OpensNothing(s, t)
    ensures OneOpenEach(t)
  {
  }

  /** In every run no task waits twice for the same action and scope, and no approval has two open challenges. */
  lemma OneOpenEver(cmds: seq<Command>)
    ensures OneOpenEach(Run(EMPTY, cmds))
  {
    OneOpenAlong(EMPTY, cmds);
  }

  lemma {:induction false} OneOpenAlong(s: Store, cmds: seq<Command>)
    requires OneOpenEach(s)
    ensures OneOpenEach(Run(s, cmds))
    decreases |cmds|
  {
    hide Step, OneOpenEach;
    if cmds != [] {
      StepKeepsOneOpen(s, cmds[0]);
      OneOpenAlong(Step(s, cmds[0]), cmds[1..]);
    }
  }

  // ------------------------------------------------------------------ where a released task goes

  /** Asking parks the task where it was, and executing the approved action puts it back there. */
  lemma AskedThenExecuted(s: Store, id: nat, gate: Binding, expiresAt: int, execution: nat, now: int)
    requires id !in s.approvals && execution !in s.executions && gate.task in s.tasks && !DuplicateRequest(s, gate) && now < expiresAt
    requires s.tasks[gate.task].state in {NewTask, Planning, Analyzing, LeadDecision, Implementing, Testing, Reviewing, FinalDecision, Rework}
    ensures var asked := Step(s, RequestAction(id, gate, expiresAt));
            var approved := Step(asked, CoreApprove(id, gate, now));
            var done := Step(approved, ExecuteApproved(id, gate, execution, true, now));
            && asked.tasks == s.tasks[gate.task := Task(OwnerApprovalRequired, Some(s.tasks[gate.task].state))]
            && done.tasks == s.tasks[gate.task := Task(s.tasks[gate.task].state, None)]
            && done.executions == s.executions[execution := id]
  {
    hide IsAllowed;
    var was := s.tasks[gate.task].state;
    ResumeIsAllowed(was);
    var asked := Step(s, RequestAction(id, gate, expiresAt));
    assert asked.approvals == s.approvals[id := Approval(gate, gate, PendingApproval, expiresAt, None)];
    assert asked.tasks == s.tasks[gate.task := Task(OwnerApprovalRequired, Some(was))] && asked.executions == s.executions;
    GrantedThenExecuted(asked, id, gate, execution, now);
  }

  lemma ResumeIsAllowed(was: TaskState)
    requires was in {NewTask, Planning, Analyzing, LeadDecision, Implementing, Testing, Reviewing, FinalDecision, Rework}
    ensures IsActionable(was) && IsAllowed(OwnerApprovalRequired, was, Some(was))
  {
  }

  lemma GrantedThenExecuted(s: Store, id: nat, gate: Binding, execution: nat, now: int)
    requires id in s.approvals && s.approvals[id].status == PendingApproval && s.approvals[id].gate == gate && now < s.approvals[id].expiresAt
    requires execution !in s.executions && IsParked(s, gate.task) && s.tasks[gate.task].resume.Some?
    requires IsAllowed(OwnerApprovalRequired, s.tasks[gate.task].resume.value, s.tasks[gate.task].resume)
    ensures var done := Step(Step(s, CoreApprove(id, gate, now)), ExecuteApproved(id, gate, execution, true, now));
            && done.tasks == s.tasks[gate.task := Task(s.tasks[gate.task].resume.value, None)] && done.executions == s.executions[execution := id]
  {
    hide IsAllowed;
  }

  /** Expiry puts a parked task back where it was, if that is a state to go back to, and blocks it otherwise. */
  lemma ExpiryReleases(s: Store, id: nat, now: int)
    requires id in s.approvals && IsParked(s, s.approvals[id].gate.task)
    ensures var task := s.approvals[id].gate.task;
            var r := s.tasks[task].resume;
            var t := Step(s, Release(id, now));
            && t.tasks == s.tasks[task := Task(if r.Some? && r.value !in {Done, Cancelled, OwnerApprovalRequired, Paused, Recovering} then r.value else Blocked, None)]
            && (IsOpen(s.approvals[id]) && s.approvals[id].expiresAt <= now ==> t.approvals == s.approvals[id := s.approvals[id].(status := ExpiredApproval)])
            && (!(IsOpen(s.approvals[id]) && s.approvals[id].expiresAt <= now) ==> t.approvals == s.approvals)
  {
  }
}
