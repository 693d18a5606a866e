/** What each step of a driver does to its request, row by row. */
module Settlement {
  import opened Wrappers
  import opened Provider
  import opened Broker

  /** One compare-and-swap: it commits only under its fence, in the state and at the revision that were read. */
  predicate Moves(r: Row, t: Row, from: RequestState, revision: nat, to: RequestState, fenced: bool) {
    if fenced && r.state == from && r.revision == revision then
      && t.state == to && t.revision == revision + 1
      && t.attempts == r.attempts && t.request == r.request && t.expiresAt == r.expiresAt && t.dispatched == r.dispatched
    else t == r
  }

  /** What the provider's answer makes of a request that is still EXECUTING as its driver left it. */
  predicate Settles(r: Row, t: Row, revision: nat, answer: Outcome, fenced: bool) {
    match answer
    case Success(_) => Moves(r, t, Executing, revision, Succeeded, fenced)
    case ConflictOutcome => Moves(r, t, Executing, revision, Failed, fenced)
    case ValidationFailed => Moves(r, t, Executing, revision, Failed, fenced)
    case CredentialError => Moves(r, t, Executing, revision, Failed, fenced)
    case _ =>
      if fenced && r.state == Executing && r.revision == revision && r.attempts < 8 then
        && t.state == WaitingExternal && t.revision == revision + 1 && t.attempts == r.attempts + 1
        && t.request == r.request && t.expiresAt == r.expiresAt && t.dispatched == r.dispatched
      else Moves(r, t, Executing, revision, Failed, fenced)
  }

  predicate OthersStay(s: Sys, t: Sys, id: nat) {
    t.rows.Keys == s.rows.Keys && forall k :: k in s.rows && k != id ==> t.rows[k] == s.rows[k]
  }

  lemma SettleMeans(s: Sys, d: nat, fenced: bool)
    requires Inv(s) && d in s.drivers && s.drivers[d].Answered?
    ensures var x := s.drivers[d];
            var t := Apply(s, Settle(d, fenced));
            && x.id in s.rows && OthersStay(s, t, x.id) && Settles(s.rows[x.id], t.rows[x.id], x.revision, x.outcome, fenced)
            && t.provider == s.provider && d !in t.drivers
  {
    hide Inv, Perform;
    DriverFacts(s, d);
  }

  lemma RefuseMeans(s: Sys, d: nat, to: RequestState, fenced: bool)
    requires Inv(s) && d in s.drivers && s.drivers[d].Driving? && to in {Failed, Blocked}
    ensures var x := s.drivers[d];
            var t := Apply(s, Refuse(d, to, fenced));
            && x.id in s.rows && OthersStay(s, t, x.id) && Moves(s.rows[x.id], t.rows[x.id], Executing, x.revision, to, fenced)
            && t.provider == s.provider && d !in t.drivers
  {
    hide Inv, Perform;
    DriverFacts(s, d);
  }

  lemma StartMeans(s: Sys, d: nat, fenced: bool)
    requires Inv(s) && IsReading(s, d, {ForExecute, ForRedrive}) && !s.drivers[d].expired
    ensures var x := s.drivers[d];
            var t := Apply(s, Start(d, fenced));
            var won := fenced && s.rows[x.id].state == x.state && s.rows[x.id].revision == x.revision;
            && OthersStay(s, t, x.id) && Moves(s.rows[x.id], t.rows[x.id], x.state, x.revision, Executing, fenced)
            && t.provider == s.provider
            && (d in t.drivers <==> won)
            && (won ==> t.drivers[d].Driving? && t.drivers[d].id == x.id && t.drivers[d].revision == x.revision + 1)
  {
    hide Inv, Perform;
    DriverFacts(s, d);
  }

  lemma DispatchMeans(s: Sys, d: nat, effect: bool, answer: Outcome)
    requires Inv(s) && Enabled(s, Dispatch(d, effect, answer))
    ensures var x := s.drivers[d];
            var t := Apply(s, Dispatch(d, effect, answer));
            && x.id in s.rows && OthersStay(s, t, x.id)
            && t.rows[x.id] == s.rows[x.id].(dispatched := s.rows[x.id].dispatched + [x.revision])
            && d in t.drivers && t.drivers[d] == Answered(x.id, x.revision, x.attempts, answer)
            && t.provider == if effect then Perform(s.provider, s.rows[x.id].request).0 else s.provider
  {
    hide Inv, Perform;
  }

  /** An expired request ends BLOCKED, from any state that is not yet terminal. */
  lemma ExpireMeans(s: Sys, d: nat)
    requires Inv(s) && Enabled(s, Expire(d))
    ensures var x := s.drivers[d];
            var t := Apply(s, Expire(d));
            && OthersStay(s, t, x.id) && t.provider == s.provider && d !in t.drivers
            && (!IsTerminal(x.state) ==> Moves(s.rows[x.id], t.rows[x.id], x.state, x.revision, Blocked, true))
  {
    hide Inv, Perform;
  }

  /** An authorization moves a request from PENDING to AUTHORIZED and does nothing else. */
  lemma AuthorizeMeans(s: Sys, d: nat)
    requires Inv(s) && Enabled(s, Authorize(d))
    ensures var x := s.drivers[d];
            var t := Apply(s, Authorize(d));
            && OthersStay(s, t, x.id) && Moves(s.rows[x.id], t.rows[x.id], Pending, x.revision, Authorized, true)
            && t.provider == s.provider && d !in t.drivers
  {
    hide Inv, Perform;
  }

  /** A round that nothing interrupts: the request is read, started, sent to the provider and settled by its answer. */
  lemma UninterruptedRound(s: Sys, d: nat, id: nat, now: int, effect: bool, answer: Outcome) returns (acts: seq<Action>)
    requires Inv(s) && d !in s.drivers && id in s.rows && s.rows[id].state in {Authorized, WaitingExternal} && !IsExpired(s.rows[id], now)
    requires if effect then answer in {Perform(s.provider, s.rows[id].request).1, Unavailable} else !answer.Success?
    ensures Runs(s, acts)
    ensures var t := After(s, acts);
            && OthersStay(s, t, id) && d !in t.drivers && t.provider == (if effect then Perform(s.provider, s.rows[id].request).0 else s.provider)
            && t.rows[id].revision == s.rows[id].revision + 2
            && t.rows[id].state == (match answer
                                    case Success(_) => Succeeded
                                    case ConflictOutcome => Failed
                                    case ValidationFailed => Failed
                                    case CredentialError => Failed
                                    case _ => if s.rows[id].attempts < 8 then WaitingExternal else Failed)
  {
    hide Inv, Runs, After, Perform, Apply, Enabled;
    var r := s.rows[id];
    var a := Read(d, id, if r.state == Authorized then ForExecute else ForRedrive, now);
    var b, c, e := Start(d, true), Dispatch(d, effect, answer), Settle(d, true);
    ReadMeans(s, d, id, a.purpose, now);
    var s1 := Apply(s, a);
    StepKeepsInv(s, a);
    CanStart(s1, d);
    StartMeans(s1, d, true);
    var s2 := Apply(s1, b);
    StepKeepsInv(s1, b);
    CanDispatch(s2, d, effect, answer);
    DispatchMeans(s2, d, effect, answer);
    var s3 := Apply(s2, c);
    StepKeepsInv(s2, c);
    CanSettle(s3, d);
    SettleMeans(s3, d, true);
    acts := [a, b, c, e];
    RunsFour(s, a, b, c, e);
  }

  lemma ReadMeans(s: Sys, d: nat, id: nat, purpose: Purpose, now: int)
    requires Inv(s) && d !in s.drivers && id in s.rows && !IsExpired(s.rows[id], now)
    requires s.rows[id].state == (if purpose == ForExecute then Authorized else WaitingExternal) && purpose in {ForExecute, ForRedrive}
    ensures Enabled(s, Read(d, id, purpose, now))
    ensures var t := Apply(s, Read(d, id, purpose, now));
            && t == s.(drivers := t.drivers) && d in t.drivers
            && t.drivers[d] == Reading(id, purpose, s.rows[id].state, s.rows[id].revision, s.rows[id].attempts, false)
  {
    hide Inv, Perform;
  }

  lemma CanStart(s: Sys, d: nat)
    requires IsReading(s, d, {ForExecute, ForRedrive}) && !s.drivers[d].expired
    ensures Enabled(s, Start(d, true))
  {
  }

  lemma CanDispatch(s: Sys, d: nat, effect: bool, answer: Outcome)
    requires d in s.drivers && s.drivers[d].Driving? && s.drivers[d].id in s.rows
    requires if effect then answer in {Perform(s.provider, s.rows[s.drivers[d].id].request).1, Unavailable} else !answer.Success?
    ensures Enabled(s, Dispatch(d, effect, answer))
  {
  }

  lemma CanSettle(s: Sys, d: nat)
    requires d in s.drivers && s.drivers[d].Answered?
    ensures Enabled(s, Settle(d, true))
  {
  }

  /** So an authorised create that the provider performs ends SUCCEEDED, with its pull request there. */
  lemma PerformedCreateSucceeds(s: Sys, d: nat, id: nat, now: int) returns (acts: seq<Action>)
    requires Inv(s) && d !in s.drivers && id in s.rows && s.rows[id].state == Authorized && !IsExpired(s.rows[id], now)
    requires s.rows[id].request.CreatePullRequest?
    ensures Runs(s, acts)
    ensures var t := After(s, acts);
            id in t.rows && t.rows[id].state == Succeeded && Created(t.provider, s.rows[id].request.identity)
  {
    hide Inv, Runs, After, FindOwned;
    var r := s.rows[id].request;
    var answer := Perform(s.provider, r).1;
    acts := UninterruptedRound(s, d, id, now, true, answer);
    assert Matches(Perform(s.provider, r).0, answer.objectId, r.identity);
  }
}
