/** The task state machine (argent_core/state_machine.py). */
module StateMachine {
  import opened Wrappers

  datatype TaskState =
    | NewTask | Planning | Analyzing | LeadDecision | Implementing | Testing | Reviewing | FinalDecision | Done
    | Rework | Blocked | OwnerApprovalRequired | Paused | Failed | Recovering | Cancelled

  predicate IsTerminal(s: TaskState) {
    s in {Done, Cancelled}
  }

  predicate IsPause(s: TaskState) {
    s in {OwnerApprovalRequired, Paused, Recovering}
  }

  /** The main path without DONE, plus REWORK. */
  predicate IsActionable(s: TaskState) {
    s in {NewTask, Planning, Analyzing, LeadDecision, Implementing, Testing, Reviewing, FinalDecision, Rework}
  }

  predicate IsValidResumeTarget(r: Option<TaskState>) {
    r.Some? && !IsTerminal(r.value) && !IsPause(r.value)
  }

  function StaticTargets(from: TaskState): set<TaskState> {
    match from
    case NewTask => {Planning}
    case Planning => {Analyzing, Rework}
    case Analyzing => {LeadDecision}
    case LeadDecision => {Implementing, Rework}
    case Implementing => {Testing}
    case Testing => {Reviewing, Rework}
    case Reviewing => {FinalDecision, Rework}
    case FinalDecision => {Done, Rework}
    case Rework => {Planning, Implementing}
    case Blocked => {Recovering}
    case Failed => {Recovering, Cancelled}
    case _ => {}
  }

  function PauseExits(from: TaskState): set<TaskState> {
    match from
    case OwnerApprovalRequired => {Blocked, Cancelled}
    case Paused => {Cancelled}
    case Recovering => {Blocked}
    case _ => {}
  }

  predicate IsAllowed(from: TaskState, to: TaskState, resume: Option<TaskState>) {
    if from == to || IsTerminal(from) then false
    else if IsPause(from) then
      (resume == Some(to) && IsValidResumeTarget(resume)) || to in PauseExits(from)
    else
      to in StaticTargets(from) || to == OwnerApprovalRequired || to in {Blocked, Cancelled}
  }
}
