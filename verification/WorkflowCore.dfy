/**
 The orchestration commands as they change stored rows (argent_core/core.py), each proved against the
 step function of module Workflow.  A raised command leaves every row as it was: its transaction rolls back.
 */
module WorkflowCore {
  import opened Wrappers
  import opened StateMachine
  import opened Workflow

  lemma ConsumedOfPrefix(ds: seq<Dispatch>, i: nat, c: nat)
    requires i < |ds|
    ensures ConsumedPositions(ds[..i + 1], c) ==
            ConsumedPositions(ds[..i], c) + (if ds[i].cycle == c && ds[i].status == Consumed then {ds[i].position} else {})
  {
    var a, b := ds[..i], ds[..i + 1];
    forall p | p in ConsumedPositions(a, c) ensures p in ConsumedPositions(b, c) {
      var j :| 0 <= j < |a| && a[j].cycle == c && a[j].status == Consumed && a[j].position == p;
      assert b[j] == a[j];
    }
    forall p | p in ConsumedPositions(b, c)
      ensures p in ConsumedPositions(a, c) || (ds[i].cycle == c && ds[i].status == Consumed && p == ds[i].position)
    {
      var j :| 0 <= j < |b| && b[j].cycle == c && b[j].status == Consumed && b[j].position == p;
      assert j < i ==> a[j] == b[j];
    }
    assert b[i] == ds[i];
  }

  /** What recovery makes of a row: a writer is never given up, a reader only if it never ran. */
  predicate SortedOut(d: Dispatch, e: Dispatch) {
    && e.(status := d.status) == d
    && (d.status == Running || (d.status == Pending && d.role == Implementer) ==> e.status == RecoveryPending)
    && (d.status == Pending && d.role != Implementer ==> e.status == FailedDispatch)
    && (d.status !in {Pending, Running} ==> e == d)
  }

  /** A task with an unresolved row waits in RECOVERING, unless it is over or paused; without one a waiting task goes back
      to where it was, or is BLOCKED if that is nowhere to go back to. */
  function TaskAfterRecovery(task: Task, unresolved: bool): Task {
    if unresolved && task.state !in {Done, Cancelled, OwnerApprovalRequired, Paused, TaskState.Recovering} then
      Task(TaskState.Recovering, Some(task.state))
    else if !unresolved && task.state == TaskState.Recovering then
      if task.resume.Some? && task.resume.value !in {Done, Cancelled, OwnerApprovalRequired, Paused, TaskState.Recovering}
      then Task(task.resume.value, None) else Task(Blocked, None)
    else task
  }

  class Core {
    var task: Task
    var dispatches: seq<Dispatch>
    var decisions: seq<Decision>
    var openFindings: bool

    ghost function Abs(): Flow
      reads this
    {
      Flow(task, dispatches, decisions, openFindings)
    }

    constructor ()
      ensures Abs() == FRESH
    {
      task, dispatches, decisions, openFindings := Task(NewTask, None), [], [], false;
    }

    method ReworkIncludeForCycle(cycle: nat) returns (withReviewer: bool)
      ensures withReviewer == ReworkIncludeReviewer(OriginatingRework(decisions, cycle - 1), openFindings)
    {
      var i := |decisions|;
      assert decisions[..i] == decisions;
      while i > 0
        invariant 0 <= i <= |decisions|
        invariant OriginatingRework(decisions, cycle - 1) == OriginatingRework(decisions[..i], cycle - 1)
      {
        i := i - 1;
        assert decisions[..i + 1][..i] == decisions[..i];
        if decisions[i].verdict == ReworkVerdict && decisions[i].cycle == cycle - 1 {
          return ReworkIncludeReviewer(Some(decisions[i]), openFindings);
        }
      }
      return ReworkIncludeReviewer(None, openFindings);
    }

    /** The position loop of the frontier. */
    method FirstUnconsumed(consumed: set<nat>, length: nat) returns (p: nat)
      ensures p == FirstFree(consumed, 0, length)
      ensures p <= length && (forall q: nat :: q < p ==> q in consumed) && (p < length ==> p !in consumed)
    {
      p := 0;
      while p < length && p in consumed
        invariant p <= length && FirstFree(consumed, 0, length) == FirstFree(consumed, p, length)
        invariant forall q: nat :: q < p ==> q in consumed
      {
        p := p + 1;
      }
    }

    method LatestCycle() returns (maxCycle: nat)
      ensures maxCycle == MaxCycle(dispatches)
    {
      maxCycle := 0;
      for i := 0 to |dispatches|
        invariant maxCycle == MaxCycle(dispatches[..i])
      {
        assert dispatches[..i + 1][..i] == dispatches[..i];
        if dispatches[i].cycle > maxCycle {
          maxCycle := dispatches[i].cycle;
        }
      }
      assert dispatches[..|dispatches|] == dispatches;
    }

    method CycleRows(cycle: nat) returns (kind: Kind, consumed: set<nat>)
      ensures kind == KindOfCycle(dispatches, cycle) && consumed == ConsumedPositions(dispatches, cycle)
    {
      kind, consumed := StandardKind, {};
      for i := 0 to |dispatches|
        invariant kind == KindOfCycle(dispatches[..i], cycle)
        invariant consumed == ConsumedPositions(dispatches[..i], cycle)
      {
        assert dispatches[..i + 1][..i] == dispatches[..i];
        ConsumedOfPrefix(dispatches, i, cycle);
        if dispatches[i].cycle == cycle {
          kind := dispatches[i].kind;
          if dispatches[i].status == Consumed {
            consumed := consumed + {dispatches[i].position};
          }
        }
      }
      assert dispatches[..|dispatches|] == dispatches;
    }

    method CurrentFrontier() returns (fr: Frontier)
      ensures fr == WorkflowFrontier(Abs())
    {
      hide MaxCycle, KindOfCycle, ConsumedPositions, OriginatingRework, FirstFree;
      if dispatches == [] {
        return Frontier.Frontier(1, 0, StandardKind, true, Some(Lead));
      }
      var maxCycle := LatestCycle();
      if decisions != [] {
        var last := decisions[|decisions|-1];
        if last.verdict == ReworkVerdict && last.cycle == maxCycle {
          return Frontier.Frontier(maxCycle + 1, 0, ReworkKind, ReworkIncludeReviewer(Some(last), openFindings), Some(Lead));
        }
      }
      var kind, consumed := CycleRows(maxCycle);
      var withReviewer := true;
      if kind == ReworkKind {
        withReviewer := ReworkIncludeForCycle(maxCycle);
      }
      var order := EffectiveSequence(kind, withReviewer);
      var p := FirstUnconsumed(consumed, |order|);
      fr := Frontier.Frontier(maxCycle, p, kind, withReviewer, if p < |order| then Some(order[p]) else None);
    }

    method CreateDispatch(role: Role, position: nat, cycle: nat, kind: Kind, admitted: bool) returns (outcome: Outcome)
      modifies this
      ensures (Abs(), outcome) == Step(old(Abs()), Command.CreateDispatch(role, position, cycle, kind, admitted))
    {
      if !admitted || IsTerminal(task.state) || IsPause(task.state) {
        return Refused;
      }
      var fr := CurrentFrontier();
      if fr.expected != Some(role) || cycle != fr.cycle || position != fr.position || kind != fr.kind {
        return Refused;
      }
      for i := 0 to |dispatches|
        invariant forall j :: 0 <= j < i ==> !IsActive(dispatches[j])
      {
        if IsActive(dispatches[i]) {
          return Refused;
        }
      }
      dispatches := dispatches + [Dispatch(cycle, position, kind, role, Pending)];
      outcome := Applied;
    }

    method SetStatus(i: nat, status: DispatchStatus)
      requires i < |dispatches|
      modifies this`dispatches
      ensures dispatches == old(dispatches)[i := old(dispatches)[i].(status := status)]
    {
      dispatches := dispatches[i := dispatches[i].(status := status)];
    }

    method BindSpawnResult(i: nat, matches: bool) returns (outcome: Outcome)
      modifies this`dispatches
      ensures (Abs(), outcome) == Step(old(Abs()), Command.BindSpawnResult(i, matches))
    {
      if i >= |dispatches| || dispatches[i].status !in {Pending, RecoveryPending} {
        return Refused;
      }
      SetStatus(i, if matches then Running else Rejected);
      outcome := Applied;
    }

    /** Walks the plan one transition at a time; `false` is the raised InvalidTransition. */
    method ApplyStateSync(d: Dispatch, verdict: Option<Verdict>) returns (ok: bool)
      modifies this`task
      ensures ok == StateSync(old(task), d, verdict).Some?
      ensures ok ==> task == StateSync(old(task), d, verdict).value
    {
      if task.state == Recovering {
        if task.resume.None? || !IsAllowed(Recovering, task.resume.value, task.resume) {
          return false;
        }
        task := Task(task.resume.value, None);
      }
      var plan := StateSyncPlan(d, verdict, task.state);
      ghost var start := task;
      for i := 0 to |plan|
        invariant Follow(start, plan) == Follow(task, plan[i..])
      {
        if task.state != plan[i].0 || !IsAllowed(task.state, plan[i].1, task.resume) {
          return false;
        }
        assert plan[i..][1..] == plan[i + 1..];
        task := Task(plan[i].1, None);
      }
      ok := true;
    }

    method ReceiveResult(i: nat, authentic: bool, wellFormed: bool, verdict: Verdict,
                         withReviewer: Option<bool>, findingsAfter: bool)
      returns (outcome: Outcome)
      modifies this
      ensures (Abs(), outcome) ==
              Step(old(Abs()), Command.ReceiveResult(i, authentic, wellFormed, verdict, withReviewer, findingsAfter))
    {
      if i >= |dispatches| || dispatches[i].status !in {Running, RecoveryPending} || !authentic || IsTerminal(task.state) {
        return Refused;
      }
      if !wellFormed {
        SetStatus(i, Rejected);
        return Applied;
      }
      var d, before := dispatches[i], task;
      var ok := ApplyStateSync(d, Some(verdict));
      if !ok {
        task := before;
        return SyncRaised;
      }
      if d.role == Lead {
        decisions := decisions + [Decision(verdict, d.cycle, withReviewer)];
      }
      openFindings := findingsAfter;
      SetStatus(i, Consumed);
      outcome := Applied;
    }

    method MarkFailed(i: nat) returns (outcome: Outcome)
      modifies this`dispatches
      ensures (Abs(), outcome) == Step(old(Abs()), Command.MarkFailed(i))
    {
      if i >= |dispatches| || dispatches[i].status !in {Running, RecoveryPending} {
        return Refused;
      }
      SetStatus(i, FailedDispatch);
      outcome := Applied;
    }

    method Recover() returns (outcome: Outcome)
      modifies this
      ensures (Abs(), outcome) == Step(old(Abs()), Command.Recover)
      ensures |dispatches| == |old(dispatches)| && forall i :: 0 <= i < |dispatches| ==> SortedOut(old(dispatches)[i], dispatches[i])
      ensures task == TaskAfterRecovery(old(task), exists i :: 0 <= i < |dispatches| && dispatches[i].status == RecoveryPending)
      ensures decisions == old(decisions) && openFindings == old(openFindings)
    {
      var conservative := false;
      for i := 0 to |dispatches|
        invariant |dispatches| == |old(dispatches)| && task == old(task)
        invariant decisions == old(decisions) && openFindings == old(openFindings)
        invariant forall j :: 0 <= j < i ==> dispatches[j] == old(dispatches)[j].(status := RecoverStatus(old(dispatches)[j]))
        invariant forall j :: i <= j < |dispatches| ==> dispatches[j] == old(dispatches)[j]
        invariant conservative <==> exists j :: 0 <= j < i && dispatches[j].status == RecoveryPending
      {
        var d := dispatches[i];
        if d.status == Pending && d.role != Implementer {
          SetStatus(i, FailedDispatch);
        } else if d.status == Pending || d.status == Running {
          SetStatus(i, RecoveryPending);
        }
        if dispatches[i].status == RecoveryPending {
          conservative := true;
        }
      }
      assert dispatches == RecoverDispatches(old(dispatches));
      if conservative {
        if !IsTerminal(task.state) && !IsPause(task.state) {
          task := Task(Recovering, Some(task.state));
        }
      } else if task.state == Recovering {
        task := if IsValidResumeTarget(task.resume) then Task(task.resume.value, None) else Task(Blocked, None);
      }
      outcome := Applied;
    }
  }
}
