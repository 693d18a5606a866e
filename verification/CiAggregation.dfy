/** CI aggregation and the wake decision of one CI wait (argent_core/ci_external_wait.py). */
module CiAggregation {
  import opened Wrappers

  datatype Conclusion = Success | Failure | Cancelled | TimedOut | ActionRequired | Neutral | Skipped | Stale | StartupFailure | OtherConclusion
  datatype Status = Queued | InProgress | Completed | PendingStatus | UnknownStatus | OtherStatus
  datatype Check = Check(name: string, conclusion: Option<Conclusion>, status: Status)

  datatype CiState =
    | SuccessState | PendingState | UnknownState | ActionRequiredState | TimedOutState | CancelledState | FailureState
    | NoChecksConfigured | ProviderUnavailable

  // ------------------------------------------------------------------ the ladder

  /** The first check of a name wins. */
  function Lookup(checks: seq<Check>, name: string): (r: Option<Check>)
    ensures r.Some? ==> r.value in checks && r.value.name == name
    ensures r.None? ==> forall c :: c in checks ==> c.name != name
  {
    if checks == [] then None else if checks[0].name == name then Some(checks[0]) else Lookup(checks[1..], name)
  }

  predicate Concluded(checks: seq<Check>, name: string, conclusions: set<Conclusion>) {
    var c := Lookup(checks, name);
    c.Some? && c.value.conclusion.Some? && c.value.conclusion.value in conclusions
  }

  predicate AnyConcluded(checks: seq<Check>, names: set<string>, conclusions: set<Conclusion>) {
    exists n :: n in names && Concluded(checks, n, conclusions)
  }

  function Names(checks: seq<Check>): set<string> {
    set c | c in checks :: c.name
  }

  /** The four terminal passes, in order of priority. */
  function TerminalPasses(checks: seq<Check>, names: set<string>): Option<CiState> {
    if AnyConcluded(checks, names, {Failure, StartupFailure}) then Some(FailureState)
    else if AnyConcluded(checks, names, {Cancelled}) then Some(CancelledState)
    else if AnyConcluded(checks, names, {TimedOut}) then Some(TimedOutState)
    else if AnyConcluded(checks, names, {ActionRequired}) then Some(ActionRequiredState)
    else None
  }

  /** `aggregate_ci_state`. */
  function Aggregate(checks: seq<Check>, required: Option<set<string>>): CiState {
    if required.None? then UnknownState
    else if checks == [] then NoChecksConfigured
    else
      var req := required.value;
      var t := TerminalPasses(checks, if req == {} then Names(checks) else req);
      if t.Some? then t.value
      else if req == {} then UnknownState
      else if AnyConcluded(checks, req, {Neutral, Skipped, Stale}) then UnknownState
      else if exists n :: n in req && Lookup(checks, n).None? then UnknownState
      else if exists n :: n in req && Lookup(checks, n).Some? && Lookup(checks, n).value.conclusion.None? then PendingState
      else SuccessState
  }

  // ------------------------------------------------------------------ the lattice

  function Rank(s: CiState): nat {
    match s
    case FailureState => 6
    case CancelledState => 5
    case TimedOutState => 4
    case ActionRequiredState => 3
    case UnknownState => 2
    case PendingState => 1
    case _ => 0
  }

  /** What a single required check says by itself. */
  function StatusOf(checks: seq<Check>, name: string): CiState {
    var c := Lookup(checks, name);
    if c.None? then UnknownState
    else
      match c.value.conclusion
      case None => PendingState
      case Some(Failure) => FailureState
      case Some(StartupFailure) => FailureState
      case Some(Cancelled) => CancelledState
      case Some(TimedOut) => TimedOutState
      case Some(ActionRequired) => ActionRequiredState
      case Some(Success) => SuccessState
      case _ => UnknownState
  }

  /** `s` is the worst status over the required names. */
  ghost predicate IsWorst(checks: seq<Check>, required: set<string>, s: CiState) {
    && (exists n :: n in required && StatusOf(checks, n) == s)
    && (forall n :: n in required ==> Rank(StatusOf(checks, n)) <= Rank(s))
  }

  /** Only conclusions of the closed set, and none on a check that is still running. */
  predicate Validated(checks: seq<Check>) {
    forall c :: c in checks ==> c.conclusion != Some(OtherConclusion) && c.status != OtherStatus
                                && (c.conclusion.Some? ==> c.status !in {Queued, InProgress, PendingStatus})
  }

  /** The ladder is a lattice fold: over a non-empty required set it is the worst single status, under
      FAILURE > CANCELLED > TIMED_OUT > ACTION_REQUIRED > UNKNOWN > PENDING > SUCCESS. */
  lemma LadderIsWorst(checks: seq<Check>, required: set<string>)
    requires Validated(checks) && checks != [] && required != {}
    ensures IsWorst(checks, required, Aggregate(checks, Some(required)))
  {
  }

  function Worse(a: CiState, b: CiState): CiState {
    if Rank(a) >= Rank(b) then a else b
  }

  /** Aggregation distributes over the union of non-empty required sets. */
  lemma UnionIsWorse(checks: seq<Check>, a: set<string>, b: set<string>)
    requires Validated(checks) && checks != [] && a != {} && b != {}
    ensures Aggregate(checks, Some(a + b)) == Worse(Aggregate(checks, Some(a)), Aggregate(checks, Some(b)))
  {
    hide Lookup;
  }

  /** Checks that are not required never decide: any other reading that agrees on the required names aggregates alike. */
  lemma OptionalNeverDecides(checks: seq<Check>, others: seq<Check>, required: set<string>)
    requires Validated(checks) && Validated(others) && checks != [] && others != [] && required != {}
    requires forall n :: n in required ==> Lookup(checks, n) == Lookup(others, n)
    ensures Aggregate(checks, Some(required)) == Aggregate(others, Some(required))
  {
    hide Lookup;
  }

  /** SUCCESS exactly when every required check is there and concluded SUCCESS, and some is required. */
  lemma SuccessIff(checks: seq<Check>, required: Option<set<string>>)
    requires Validated(checks)
    ensures Aggregate(checks, required) == SuccessState <==>
              && required.Some? && required.value != {} && checks != []
              && forall n :: n in required.value ==> Lookup(checks, n).Some? && Lookup(checks, n).value.conclusion == Some(Success)
  {
    hide Lookup;
    if required.Some? && required.value != {} && checks != [] {
      LadderIsWorst(checks, required.value);
      forall n | n in required.value
        ensures StatusOf(checks, n) == SuccessState <==> Lookup(checks, n).Some? && Lookup(checks, n).value.conclusion == Some(Success)
      {
      }
    }
  }

  // ------------------------------------------------------------------ one CI wait

  datatype PrState = Open | Closed | Merged | UnknownPr | OtherPr
  datatype ProviderError = NoError | Unavailable | RateLimited | Network | UnknownError | OtherError

  /** `identityMatches` stands for the repository and pull request number of the read, `versionOk` for its event version. */
  datatype Read = Read(identityMatches: bool, headSha: Option<string>, baseRef: Option<string>, prState: PrState, checks: seq<Check>,
                       error: ProviderError, versionOk: bool)
  datatype Wait = Wait(deadline: Option<int>, expectedHead: string, expectedBase: Option<string>, required: Option<set<string>>,
                       priorNames: Option<set<string>>)

  datatype WakeReason = Deadline | HeadChanged | BaseChanged | PrClosed | PrMerged | RequiredSetChanged | Aggregated(state: CiState)
  datatype Effect = Wake(reason: WakeReason, state: Option<CiState>) | Backoff(state: Option<CiState>)

  const MAX_CI_CHECKS := 256
  const MAX_CI_CHECK_NAME_LEN := 256

  predicate ReadIsValid(r: Read) {
    && r.identityMatches && r.prState != OtherPr && r.error != OtherError && r.versionOk
    && |r.checks| <= MAX_CI_CHECKS && Validated(r.checks) && forall c :: c in r.checks ==> |c.name| <= MAX_CI_CHECK_NAME_LEN
  }

  predicate IsTerminal(s: CiState) {
    s in {SuccessState, FailureState, CancelledState, TimedOutState, ActionRequiredState}
  }

  /** A required check that was observed before is gone now. */
  predicate RequiredVanished(w: Wait, r: Read) {
    w.required.Some? && w.priorNames.Some? && (w.priorNames.value * w.required.value) - Names(r.checks) != {}
  }

  /** `_process_ci_wait`; no read is a missing adapter or an adapter that raised. */
  function ProcessWait(w: Wait, read: Option<Read>, now: int): Effect {
    if w.deadline.Some? && w.deadline.value <= now then Wake(Deadline, None)
    else if read.None? then Backoff(Some(ProviderUnavailable))
    else
      var r := read.value;
      if !ReadIsValid(r) then Backoff(None)
      else if r.error != NoError then Backoff(Some(ProviderUnavailable))
      else if r.headSha.None? then Backoff(Some(UnknownState))
      else if r.headSha.value != w.expectedHead then Wake(HeadChanged, None)
      else if r.baseRef != w.expectedBase then Wake(BaseChanged, None)
      else if r.prState == UnknownPr then Backoff(Some(UnknownState))
      else if r.prState == Closed then Wake(PrClosed, None)
      else if r.prState == Merged then Wake(PrMerged, None)
      else
        var s := Aggregate(r.checks, w.required);
        if RequiredVanished(w, r) then Wake(RequiredSetChanged, Some(s))
        else if IsTerminal(s) then Wake(Aggregated(s), Some(s))
        else Backoff(Some(s))
  }

  lemma ChangedSetIsNoSuccess(w: Wait, r: Read)
    requires Validated(r.checks) && RequiredVanished(w, r)
    ensures Aggregate(r.checks, w.required) != SuccessState
  {
    hide Lookup;
    var n :| n in (w.priorNames.value * w.required.value) - Names(r.checks);
    SuccessIff(r.checks, w.required);
    assert forall c | c in r.checks :: c.name in Names(r.checks);
  }

  /** A wait wakes with SUCCESS exactly when nothing stands against it: before the deadline, on a valid read without a
      provider error, the bound head and base, an OPEN pull request, and every required check concluded SUCCESS. */
  lemma SuccessWakeIff(w: Wait, read: Option<Read>, now: int)
    ensures var e := ProcessWait(w, read, now);
            (e.Wake? && e.state == Some(SuccessState)) <==>
              && !(w.deadline.Some? && w.deadline.value <= now) && read.Some? && ReadIsValid(read.value) && read.value.error == NoError
              && read.value.headSha == Some(w.expectedHead) && read.value.baseRef == w.expectedBase && read.value.prState == Open
              && w.required.Some? && w.required.value != {} && read.value.checks != []
              && forall n :: n in w.required.value ==>
                               Lookup(read.value.checks, n).Some? && Lookup(read.value.checks, n).value.conclusion == Some(Success)
  {
    hide Aggregate, Lookup, RequiredVanished;
    if read.Some? && Validated(read.value.checks) {
      SuccessIff(read.value.checks, w.required);
      if RequiredVanished(w, read.value) {
        ChangedSetIsNoSuccess(w, read.value);
      }
    }
  }

  /** A read that says anything about the head, before the deadline. */
  predicate Telling(w: Wait, read: Option<Read>, now: int) {
    && !(w.deadline.Some? && w.deadline.value <= now) && read.Some? && ReadIsValid(read.value) && read.value.error == NoError && read.value.headSha.Some?
  }

  predicate OnCourse(w: Wait, read: Option<Read>, now: int) {
    && Telling(w, read, now) && read.value.headSha == Some(w.expectedHead) && read.value.baseRef == w.expectedBase && read.value.prState == Open
  }

  /** A required check that an earlier read had and this one has not. */
  ghost predicate Gone(w: Wait, r: Read) {
    w.required.Some? && w.priorNames.Some?
    && exists n :: n in w.required.value && n in w.priorNames.value && forall c :: c in r.checks ==> c.name != n
  }

  lemma GoneIffVanished(w: Wait, r: Read)
    ensures Gone(w, r) <==> RequiredVanished(w, r)
  {
    if RequiredVanished(w, r) {
      var n :| n in (w.priorNames.value * w.required.value) - Names(r.checks);
      assert forall c | c in r.checks :: c.name in Names(r.checks);
    }
    if Gone(w, r) {
      var n :| n in w.required.value && n in w.priorNames.value && forall c :: c in r.checks ==> c.name != n;
      assert n in (w.priorNames.value * w.required.value) - Names(r.checks);
    }
  }

  /** A read that is not about this pull request, or out of bounds, or not understood, never wakes anybody. */
  lemma BadReadsNeverWake(w: Wait, r: Read, now: int)
    requires w.deadline.Some? ==> now < w.deadline.value
    requires || !r.identityMatches || !r.versionOk || |r.checks| > 256 || r.prState == OtherPr || r.error != NoError || r.headSha.None?
             || exists c :: c in r.checks && (c.conclusion == Some(OtherConclusion) || c.status == OtherStatus || |c.name| > 256
                                              || (c.conclusion.Some? && c.status in {Queued, InProgress, PendingStatus}))
    ensures ProcessWait(w, Some(r), now).Backoff?
  {
  }

  /** Every way to wake, each exactly when: the deadline, a moved head, a moved base, a closed or merged pull request, a required
      check that is gone, or a worst required status that is final; on anything else the wait goes on. */
  lemma WakesIff(w: Wait, read: Option<Read>, now: int)
    requires w.required.Some? && w.required.value != {}
    ensures var e := ProcessWait(w, read, now);
            && (e == Wake(Deadline, None) <==> w.deadline.Some? && w.deadline.value <= now)
            && (e == Wake(HeadChanged, None) <==> Telling(w, read, now) && read.value.headSha != Some(w.expectedHead))
            && (e == Wake(BaseChanged, None) <==>
                  Telling(w, read, now) && read.value.headSha == Some(w.expectedHead) && read.value.baseRef != w.expectedBase)
            && (e == Wake(PrClosed, None) <==> Telling(w, read, now) && read.value.headSha == Some(w.expectedHead)
                                               && read.value.baseRef == w.expectedBase && read.value.prState == Closed)
            && (e == Wake(PrMerged, None) <==> Telling(w, read, now) && read.value.headSha == Some(w.expectedHead)
                                               && read.value.baseRef == w.expectedBase && read.value.prState == Merged)
            && (e.Wake? && e.reason == RequiredSetChanged <==> OnCourse(w, read, now) && Gone(w, read.value))
            && (forall s :: e == Wake(Aggregated(s), Some(s)) <==>
                  && OnCourse(w, read, now) && !Gone(w, read.value) && read.value.checks != []
                  && IsWorst(read.value.checks, w.required.value, s)
                  && s in {SuccessState, FailureState, CancelledState, TimedOutState, ActionRequiredState})
            && (e.Wake? ==> e.state.None? || e.reason == RequiredSetChanged || (e.reason.Aggregated? && e.state == Some(e.reason.state)))
  {
    hide Aggregate, Lookup, RequiredVanished, Gone, IsWorst;
    if OnCourse(w, read, now) {
      var checks := read.value.checks;
      GoneIffVanished(w, read.value);
      if checks != [] {
        LadderIsWorst(checks, w.required.value);
        forall s | IsWorst(checks, w.required.value, s) ensures s == Aggregate(checks, w.required) {
          WorstIsUnique(checks, w.required.value, s, Aggregate(checks, w.required));
        }
      } else {
        NothingConfigured(w.required);
      }
    }
  }

  lemma NothingConfigured(required: Option<set<string>>)
    requires required.Some?
    ensures Aggregate([], required) == NoChecksConfigured
  {
  }

  lemma WorstIsUnique(checks: seq<Check>, required: set<string>, s: CiState, t: CiState)
    requires IsWorst(checks, required, s) && IsWorst(checks, required, t)
    ensures s == t
  {
    var n :| n in required && StatusOf(checks, n) == s;
    var m :| m in required && StatusOf(checks, m) == t;
    assert Rank(s) == Rank(t);
  }

  // ------------------------------------------------------------------ the passes

  function ToSet(names: seq<string>): set<string> {
    set n | n in names
  }

  /** One pass over the required names. */
  method Pass(checks: seq<Check>, names: seq<string>, conclusions: set<Conclusion>) returns (hit: bool)
    ensures hit == AnyConcluded(checks, ToSet(names), conclusions)
  {
    hide Lookup, Concluded;
    for i := 0 to |names|
      invariant forall k :: 0 <= k < i ==> !Concluded(checks, names[k], conclusions)
    {
      if Concluded(checks, names[i], conclusions) {
        return true;
      }
    }
    hit := false;
  }

  /** `aggregate_ci_state` for a known, non-empty required set given in sorted order. */
  method AggregateRequired(checks: seq<Check>, names: seq<string>) returns (s: CiState)
    requires names != []
    ensures s == Aggregate(checks, Some(ToSet(names)))
  {
    hide AnyConcluded, Lookup;
    ghost var req := ToSet(names);
    assert names[0] in req;
    if checks == [] {
      return NoChecksConfigured;
    }
    var hit := Pass(checks, names, {Failure, StartupFailure});
    if hit { return FailureState; }
    hit := Pass(checks, names, {Cancelled});
    if hit { return CancelledState; }
    hit := Pass(checks, names, {TimedOut});
    if hit { return TimedOutState; }
    hit := Pass(checks, names, {ActionRequired});
    if hit { return ActionRequiredState; }
    hit := Pass(checks, names, {Neutral, Skipped, Stale});
    if hit { return UnknownState; }
    for i := 0 to |names|
      invariant forall k :: 0 <= k < i ==> Lookup(checks, names[k]).Some?
    {
      if Lookup(checks, names[i]).None? {
        assert names[i] in req;
        return UnknownState;
      }
    }
    for i := 0 to |names|
      invariant forall k :: 0 <= k < i ==> Lookup(checks, names[k]).value.conclusion.Some?
    {
      if Lookup(checks, names[i]).value.conclusion.None? {
        assert names[i] in req;
        return PendingState;
      }
    }
    s := SuccessState;
  }
}
