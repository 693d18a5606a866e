// argent_core/external_action_broker.py: the external action broker
module Broker {
  /*
   The external action broker (argent_core/external_action_broker.py) over its provider: requests, the drivers
   that authorize, execute, redrive and reconcile them, and crashes between any two steps.

   `fenced` says whether the caller still held lease and lock at a fenced transition; nothing is assumed about
   who holds them when.  A row also keeps the revisions at which EXECUTING was entered and those at which the
   provider was called; nothing reads them.
   */
  import opened Wrappers
  import opened Provider

  datatype RequestState = Pending | Authorized | Executing | WaitingExternal | Succeeded | Failed | Blocked | Denied

  const MAX_RETRY_ATTEMPTS := 8

  predicate IsTerminal(st: RequestState) {
    st in {Succeeded, Failed, Blocked, Denied}
  }

  /** REQUEST_TRANSITIONS, enforced by the store on every transition. */
  function Edges(st: RequestState): set<RequestState> {
    match st
    case Pending => {Authorized, Denied, Blocked}
    case Authorized => {Executing, Denied, Blocked}
    case Executing => {WaitingExternal, Succeeded, Failed, Blocked}
    case WaitingExternal => {Executing, Succeeded, Failed, Blocked}
    case _ => {}
  }

  datatype Row = Row(request: Request, state: RequestState, revision: nat, attempts: nat, expiresAt: Option<int>,
                     entered: set<nat>, dispatched: seq<nat>)

  datatype Purpose = ForAuthorize | ForExecute | ForRedrive | ForReconcile

  datatype Driver =
    | Reading(id: nat, purpose: Purpose, state: RequestState, revision: nat, attempts: nat, expired: bool)
    | Driving(id: nat, revision: nat, attempts: nat)
    | Answered(id: nat, revision: nat, attempts: nat, outcome: Outcome)
    | Probed(id: nat, state: RequestState, revision: nat, attempts: nat, found: Option<nat>)

  datatype Audit = AuthorizedAudit(id: nat) | ExecutedAudit(id: nat, reason: Reason) | ReconciledAudit(id: nat, success: bool)
  datatype Reason = Expired | PolicyDenied | Finalized(to: RequestState)

  datatype Sys = Sys(rows: map<nat, Row>, drivers: map<nat, Driver>, provider: World, audit: seq<Audit>)

  datatype Action =
    | Submit(id: nat, request: Request, expiresAt: Option<int>)
    | Read(d: nat, id: nat, purpose: Purpose, now: int)
    | Expire(d: nat)
    | Deny(d: nat)
    | Authorize(d: nat)
    | Start(d: nat, fenced: bool)
    | Refuse(d: nat, to: RequestState, fenced: bool)
    | Dispatch(d: nat, effect: bool, answer: Outcome)
    | Settle(d: nat, fenced: bool)
    | Probe(d: nat, readable: bool)
    | SettleProbe(d: nat, fenced: bool)
    | Crash(d: nat)
    | Foreign(provider: World)

  // ------------------------------------------------------------------ steps

  function DriverOf(a: Action): Option<nat> {
    match a
    case Submit(_, _, _) => None
    case Foreign(_) => None
    case _ => Some(a.d)
  }

  /** The revision CAS every transition goes through. */
  predicate CasHolds(s: Sys, id: nat, from: RequestState, to: RequestState, revision: nat) {
    id in s.rows && s.rows[id].state == from && s.rows[id].revision == revision && to in Edges(from)
  }

  function Cas(s: Sys, id: nat, to: RequestState, attempts: nat): Sys
    requires id in s.rows
  {
    var r := s.rows[id];
    var t := r.(state := to, revision := r.revision + 1, attempts := attempts,
                entered := if to == Executing then r.entered + {r.revision + 1} else r.entered);
    s.(rows := s.rows[id := t])
  }

  function Drop(s: Sys, d: nat): Sys {
    s.(drivers := s.drivers - {d})
  }

  function WithAudit(s: Sys, a: Audit): Sys {
    s.(audit := s.audit + [a])
  }

  predicate IsReading(s: Sys, d: nat, purposes: set<Purpose>) {
    d in s.drivers && s.drivers[d].Reading? && s.drivers[d].purpose in purposes && s.drivers[d].id in s.rows
  }

  ghost predicate Enabled(s: Sys, a: Action) {
    match a
    case Submit(id, request, _) => id !in s.rows
    case Read(d, id, purpose, now) =>
      && d !in s.drivers && id in s.rows && !IsTerminal(s.rows[id].state)
      && (purpose == ForExecute ==> s.rows[id].state == Authorized)
      && (purpose == ForRedrive ==> s.rows[id].state == WaitingExternal)
      && (purpose == ForReconcile ==> s.rows[id].state in {Executing, WaitingExternal})
    case Expire(d) => IsReading(s, d, {ForAuthorize, ForExecute, ForRedrive, ForReconcile}) && s.drivers[d].expired
    case Deny(d) => IsReading(s, d, {ForAuthorize, ForExecute, ForRedrive}) && !s.drivers[d].expired
    case Authorize(d) => IsReading(s, d, {ForAuthorize}) && !s.drivers[d].expired
    case Start(d, _) => IsReading(s, d, {ForExecute, ForRedrive}) && !s.drivers[d].expired
    case Refuse(d, to, _) => d in s.drivers && s.drivers[d].Driving? && to in {Failed, Blocked}
    case Dispatch(d, effect, answer) =>
      && d in s.drivers && s.drivers[d].Driving? && s.drivers[d].id in s.rows
      && if effect then answer in {Perform(s.provider, s.rows[s.drivers[d].id].request).1, Unavailable}
         else !answer.Success?
    case Settle(d, _) => d in s.drivers && s.drivers[d].Answered?
    case Probe(d, _) => IsReading(s, d, {ForReconcile}) && !s.drivers[d].expired
    case SettleProbe(d, _) => d in s.drivers && s.drivers[d].Probed?
    case Crash(d) => true
    case Foreign(w) =>
      NoDuplicates(w) && Keeps(s.provider, w) && forall n: nat, id | Matches(w, n, id) :: Matches(s.provider, n, id)
  }

  /** `_finalize`: the transition, and an audit row only if it happened. */
  function Finalize(s: Sys, d: nat, id: nat, to: RequestState, revision: nat, fenced: bool): Sys {
    if fenced && CasHolds(s, id, Executing, to, revision)
    then WithAudit(Drop(Cas(s, id, to, s.rows[id].attempts), d), ExecutedAudit(id, Finalized(to)))
    else Drop(s, d)
  }

  /** `_bounded_wait`: back to WAITING_EXTERNAL while the retry budget lasts. */
  function BoundedWait(s: Sys, d: nat, id: nat, revision: nat, attempts: nat, fenced: bool): Sys {
    if attempts + 1 > MAX_RETRY_ATTEMPTS then Finalize(s, d, id, Failed, revision, fenced)
    else if fenced && CasHolds(s, id, Executing, WaitingExternal, revision)
    then Drop(Cas(s, id, WaitingExternal, attempts + 1), d)
    else Drop(s, d)
  }

  predicate IsExpired(r: Row, now: int) {
    r.expiresAt.Some? && r.expiresAt.value <= now
  }

  function Apply(s: Sys, a: Action): Sys
    requires Enabled(s, a)
  {
    match a
    case Submit(id, request, expiresAt) => s.(rows := s.rows[id := Row(request, Pending, 0, 0, expiresAt, {}, [])])
    case Read(d, id, purpose, now) =>
      var r := s.rows[id];
      s.(drivers := s.drivers[d := Reading(id, purpose, r.state, r.revision, r.attempts, IsExpired(r, now))])
    case Expire(d) =>
      var x := s.drivers[d];
      var t := if CasHolds(s, x.id, x.state, Blocked, x.revision) then Cas(s, x.id, Blocked, s.rows[x.id].attempts) else s;
      WithAudit(Drop(t, d), ExecutedAudit(x.id, Expired))
    case Deny(d) =>
      var x := s.drivers[d];
      var t := if CasHolds(s, x.id, x.state, Denied, x.revision) then Cas(s, x.id, Denied, s.rows[x.id].attempts) else s;
      WithAudit(Drop(t, d), ExecutedAudit(x.id, PolicyDenied))
    case Authorize(d) =>
      var x := s.drivers[d];
      if CasHolds(s, x.id, Pending, Authorized, x.revision)
      then WithAudit(Drop(Cas(s, x.id, Authorized, s.rows[x.id].attempts), d), AuthorizedAudit(x.id))
      else Drop(s, d)
    case Start(d, fenced) =>
      var x := s.drivers[d];
      if fenced && CasHolds(s, x.id, x.state, Executing, x.revision)
      then var t := Cas(s, x.id, Executing, s.rows[x.id].attempts);
           t.(drivers := t.drivers[d := Driving(x.id, x.revision + 1, t.rows[x.id].attempts)])
      else Drop(s, d)
    case Refuse(d, to, fenced) => Finalize(s, d, s.drivers[d].id, to, s.drivers[d].revision, fenced)
    case Dispatch(d, effect, answer) =>
      var x := s.drivers[d];
      var r := s.rows[x.id];
      s.(rows := s.rows[x.id := r.(dispatched := r.dispatched + [x.revision])],
         provider := if effect then Perform(s.provider, r.request).0 else s.provider,
         drivers := s.drivers[d := Answered(x.id, x.revision, x.attempts, answer)])
    case Settle(d, fenced) =>
      var x := s.drivers[d];
      match x.outcome {
        case Success(_) => Finalize(s, d, x.id, Succeeded, x.revision, fenced)
        case Waiting => BoundedWait(s, d, x.id, x.revision, x.attempts, fenced)
        case Unavailable => BoundedWait(s, d, x.id, x.revision, x.attempts, fenced)
        case RateLimited => BoundedWait(s, d, x.id, x.revision, x.attempts, fenced)
        case _ => Finalize(s, d, x.id, Failed, x.revision, fenced)
      }
    case Probe(d, readable) =>
      var x := s.drivers[d];
      var found := if readable then Observe(s.provider, s.rows[x.id].request) else None;
      s.(drivers := s.drivers[d := Probed(x.id, x.state, x.revision, x.attempts, found)])
    case SettleProbe(d, fenced) =>
      var x := s.drivers[d];
      if x.found.None? then WithAudit(Drop(s, d), ReconciledAudit(x.id, false))
      else if fenced && CasHolds(s, x.id, x.state, Succeeded, x.revision)
      then WithAudit(Drop(Cas(s, x.id, Succeeded, s.rows[x.id].attempts), d), ReconciledAudit(x.id, true))
      else Drop(s, d)
    case Crash(d) => Drop(s, d)
    case Foreign(w) => s.(provider := w)
  }

  ghost predicate Runs(s: Sys, acts: seq<Action>)
    decreases |acts|
  {
    acts != [] ==> Enabled(s, acts[0]) && Runs(Apply(s, acts[0]), acts[1..])
  }

  ghost function After(s: Sys, acts: seq<Action>): Sys
    requires Runs(s, acts)
    decreases |acts|
  {
    if acts == [] then s else After(Apply(s, acts[0]), acts[1..])
  }

  ghost predicate Init(s: Sys) {
    s.rows == map[] && s.drivers == map[] && s.audit == [] && NoDuplicates(s.provider)
  }

  // ------------------------------------------------------------------ invariant

  predicate Distinct(q: seq<nat>) {
    forall i, j :: 0 <= i < j < |q| ==> q[i] != q[j]
  }

  /** Revision, attempts and entries into EXECUTING move together. */
  predicate Budget(r: Row) {
    && r.attempts <= MAX_RETRY_ATTEMPTS
    && match r.state
       case Pending => r.revision == 0 && r.attempts == 0 && |r.entered| == 0
       case Authorized => r.revision == 1 && r.attempts == 0 && |r.entered| == 0
       case Executing => r.revision == 2 + 2 * r.attempts && |r.entered| == r.attempts + 1
       case WaitingExternal => r.revision == 1 + 2 * r.attempts && |r.entered| == r.attempts && r.attempts >= 1
       case _ => r.revision <= 3 + 2 * r.attempts && |r.entered| <= r.attempts + 1
  }

  predicate RowOk(r: Row) {
    && Budget(r)
    && (forall e :: e in r.entered ==> e <= r.revision)
    && Distinct(r.dispatched) && (forall e :: e in r.dispatched ==> e in r.entered)
  }

  ghost predicate Created(w: World, id: Identity) {
    exists n: nat :: Matches(w, n, id)
  }

  ghost predicate HasItsPullRequest(w: World, r: Request) {
    r.CreatePullRequest? ==> Created(w, r.identity)
  }

  ghost predicate DriverOk(s: Sys, d: nat) {
    d in s.drivers ==>
      var x := s.drivers[d];
      && x.id in s.rows && var r := s.rows[x.id];
      && x.revision <= r.revision
      && match x
         case Reading(_, purpose, state, revision, attempts, _) =>
           && (purpose == ForExecute ==> state == Authorized) && (purpose == ForRedrive ==> state == WaitingExternal)
           && (purpose == ForReconcile ==> state in {Executing, WaitingExternal})
           && (revision == r.revision ==> r.state == state && r.attempts == attempts)
         case Driving(_, revision, attempts) =>
           && revision in r.entered && revision !in r.dispatched
           && (revision == r.revision ==> r.state == Executing && r.attempts == attempts)
         case Answered(_, revision, attempts, outcome) =>
           && (revision == r.revision ==> r.state == Executing && r.attempts == attempts)
           && (outcome.Success? ==> HasItsPullRequest(s.provider, r.request))
         case Probed(_, state, revision, attempts, found) =>
           && state in {Executing, WaitingExternal} && (revision == r.revision ==> r.state == state && r.attempts == attempts)
           && (found.Some? ==> HasItsPullRequest(s.provider, r.request))
  }

  ghost predicate OneDriverPerEntry(s: Sys) {
    forall d, e | d in s.drivers && e in s.drivers && s.drivers[d].Driving? && s.drivers[e].Driving?
                  && s.drivers[d].id == s.drivers[e].id && s.drivers[d].revision == s.drivers[e].revision :: d == e
  }

  ghost predicate Inv(s: Sys) {
    && (forall id :: id in s.rows ==> RowOk(s.rows[id]) && (s.rows[id].state == Succeeded ==> HasItsPullRequest(s.provider, s.rows[id].request)))
    && (forall d :: DriverOk(s, d))
    && OneDriverPerEntry(s) && NoDuplicates(s.provider)
  }

  // ------------------------------------------------------------------ preservation

  /** Requests are never dropped or altered, revisions and entries only grow, and a row at the same revision
      is in the same state with the same attempts. */
  ghost predicate Grows(s: Sys, t: Sys) {
    && Keeps(s.provider, t.provider)
    && forall id :: id in s.rows ==>
         && id in t.rows && t.rows[id].request == s.rows[id].request && s.rows[id].revision <= t.rows[id].revision
         && s.rows[id].entered <= t.rows[id].entered
         && (s.rows[id].revision == t.rows[id].revision ==>
               t.rows[id].state == s.rows[id].state && t.rows[id].attempts == s.rows[id].attempts)
  }

  lemma CreatedStays(w: World, v: World, r: Request)
    requires Keeps(w, v) && HasItsPullRequest(w, r)
    ensures HasItsPullRequest(v, r)
  {
    if r.CreatePullRequest? {
      var n: nat :| Matches(w, n, r.identity);
      assert Matches(v, n, r.identity);
    }
  }

  lemma UntouchedDriver(s: Sys, t: Sys, d: nat)
    requires DriverOk(s, d) && Grows(s, t) && (d in t.drivers ==> d in s.drivers && t.drivers[d] == s.drivers[d])
    requires d in s.drivers && s.drivers[d].Driving? && s.drivers[d].id in t.rows ==> s.drivers[d].revision !in t.rows[s.drivers[d].id].dispatched
    ensures DriverOk(t, d)
  {
    hide Keeps, HasItsPullRequest;
    if d in t.drivers && HasItsPullRequest(s.provider, s.rows[s.drivers[d].id].request) {
      CreatedStays(s.provider, t.provider, s.rows[s.drivers[d].id].request);
    }
  }

  /** Steps that leave every row as it is. */
  lemma QuietKeepsInv(s: Sys, t: Sys, d: nat)
    requires Inv(s) && t.rows == s.rows && t.provider == s.provider
    requires forall e :: e in t.drivers && e != d ==> e in s.drivers && t.drivers[e] == s.drivers[e]
    requires d in t.drivers ==> !t.drivers[d].Driving?
    requires DriverOk(t, d)
    ensures Inv(t) && Grows(s, t)
  {
    hide RowOk, HasItsPullRequest, NoDuplicates;
    forall e: nat ensures DriverOk(t, e) {
      assert DriverOk(s, e);
      if e != d {
        UntouchedDriver(s, t, e);
      }
    }
  }

  /** One legal transition keeps the budget. */
  lemma CasRow(r: Row, t: Row, to: RequestState, attempts: nat)
    requires RowOk(r) && to in Edges(r.state) && attempts <= MAX_RETRY_ATTEMPTS
    requires attempts == if to == WaitingExternal then r.attempts + 1 else r.attempts
    requires t == r.(state := to, revision := r.revision + 1, attempts := attempts,
                     entered := if to == Executing then r.entered + {r.revision + 1} else r.entered)
    ensures RowOk(t) && r.entered <= t.entered
    ensures r.revision + 1 !in r.entered && r.revision + 1 !in r.dispatched
  {
    assert r.revision + 1 !in r.entered;
  }

  lemma StillToDispatch(s: Sys, d: nat)
    requires DriverOk(s, d)
    ensures d in s.drivers && s.drivers[d].Driving? ==> s.drivers[d].id in s.rows && s.drivers[d].revision !in s.rows[s.drivers[d].id].dispatched
  {
  }

  lemma NewDriver(s: Sys, t: Sys, id: nat, to: RequestState, attempts: nat, d: nat)
    requires Inv(s) && id in s.rows && id in t.rows && t.rows[id] == Cas(s, id, to, attempts).rows[id]
    requires d in t.drivers ==> to == Executing && t.drivers[d] == Driving(id, s.rows[id].revision + 1, attempts)
    ensures DriverOk(t, d)
    ensures forall e | e in s.drivers && s.drivers[e].Driving? && s.drivers[e].id == id :: s.drivers[e].revision != s.rows[id].revision + 1
  {
    hide HasItsPullRequest, NoDuplicates, Budget;
    assert RowOk(s.rows[id]);
    forall e | e in s.drivers && s.drivers[e].Driving? && s.drivers[e].id == id ensures s.drivers[e].revision != s.rows[id].revision + 1 {
      assert DriverOk(s, e);
    }
  }

  /** One row moves on by one legal transition. */
  lemma CasKeepsInv(s: Sys, t: Sys, id: nat, to: RequestState, attempts: nat, d: nat)
    requires Inv(s) && id in s.rows && to in Edges(s.rows[id].state)
    requires attempts == if to == WaitingExternal then s.rows[id].attempts + 1 else s.rows[id].attempts
    requires attempts <= MAX_RETRY_ATTEMPTS && t.rows == Cas(s, id, to, attempts).rows && t.provider == s.provider
    requires to == Succeeded ==> HasItsPullRequest(s.provider, s.rows[id].request)
    requires forall e :: e in t.drivers && e != d ==> e in s.drivers && t.drivers[e] == s.drivers[e]
    requires d in t.drivers ==> to == Executing && t.drivers[d] == Driving(id, s.rows[id].revision + 1, attempts)
    ensures Inv(t) && Grows(s, t)
  {
    hide HasItsPullRequest, NoDuplicates, RowOk, DriverOk, Keeps;
    var r := s.rows[id];
    CasRow(r, t.rows[id], to, attempts);
    KeepsSelf(s.provider);
    NewDriver(s, t, id, to, attempts, d);
    forall e: nat ensures DriverOk(t, e) {
      assert DriverOk(s, e);
      if e != d {
        StillToDispatch(s, e);
        UntouchedDriver(s, t, e);
      }
    }
    assert OneDriverPerEntry(t);
  }

  lemma FinalizeKeepsInv(s: Sys, d: nat, id: nat, to: RequestState, revision: nat, fenced: bool)
    requires Inv(s) && to in {Succeeded, Failed, Blocked}
    requires to == Succeeded && id in s.rows ==> HasItsPullRequest(s.provider, s.rows[id].request)
    ensures Inv(Finalize(s, d, id, to, revision, fenced)) && Grows(s, Finalize(s, d, id, to, revision, fenced))
  {
    hide Inv, Grows, HasItsPullRequest;
    var t := Finalize(s, d, id, to, revision, fenced);
    if fenced && CasHolds(s, id, Executing, to, revision) {
      Budgeted(s, id);
      CasKeepsInv(s, t, id, to, s.rows[id].attempts, d);
    } else {
      QuietKeepsInv(s, t, d);
    }
  }

  lemma Budgeted(s: Sys, id: nat)
    requires Inv(s) && id in s.rows
    ensures RowOk(s.rows[id]) && s.rows[id].attempts <= MAX_RETRY_ATTEMPTS
  {
  }

  lemma DriverFacts(s: Sys, d: nat)
    requires Inv(s)
    ensures DriverOk(s, d)
  {
  }

  lemma BoundedWaitKeepsInv(s: Sys, d: nat, id: nat, revision: nat, attempts: nat, fenced: bool)
    requires Inv(s) && d in s.drivers && s.drivers[d].Answered? && s.drivers[d].id == id && s.drivers[d].revision == revision
    requires s.drivers[d].attempts == attempts
    ensures Inv(BoundedWait(s, d, id, revision, attempts, fenced)) && Grows(s, BoundedWait(s, d, id, revision, attempts, fenced))
  {
    hide Inv, Grows, HasItsPullRequest, Finalize;
    var t := BoundedWait(s, d, id, revision, attempts, fenced);
    DriverFacts(s, d);
    if attempts + 1 > MAX_RETRY_ATTEMPTS {
      FinalizeKeepsInv(s, d, id, Failed, revision, fenced);
    } else if fenced && CasHolds(s, id, Executing, WaitingExternal, revision) {
      CasKeepsInv(s, t, id, WaitingExternal, attempts + 1, d);
    } else {
      QuietKeepsInv(s, t, d);
    }
  }

  lemma DispatchKeepsInv(s: Sys, d: nat, effect: bool, answer: Outcome)
    requires Inv(s) && Enabled(s, Dispatch(d, effect, answer))
    ensures Inv(Apply(s, Dispatch(d, effect, answer))) && Grows(s, Apply(s, Dispatch(d, effect, answer)))
  {
    hide NoDuplicates, HasItsPullRequest, Perform;
    var t := Apply(s, Dispatch(d, effect, answer));
    var x := s.drivers[d];
    var r := s.rows[x.id];
    DriverFacts(s, d);
    PerformKeeps(s.provider, r.request);
    AnswerIsTrue(s, d, effect, answer);
    KeepsSelf(s.provider);
    assert Keeps(s.provider, t.provider);
    forall e: nat ensures DriverOk(t, e) {
      assert DriverOk(s, e);
      if e != d {
        UntouchedDriver(s, t, e);
      }
    }
    forall id | id in t.rows ensures RowOk(t.rows[id]) && (t.rows[id].state == Succeeded ==> HasItsPullRequest(t.provider, t.rows[id].request)) {
      assert RowOk(s.rows[id]);
      if s.rows[id].state == Succeeded {
        CreatedStays(s.provider, t.provider, s.rows[id].request);
      }
    }
  }

  lemma KeepsSelf(w: World)
    ensures Keeps(w, w)
  {
  }

  lemma AnswerIsTrue(s: Sys, d: nat, effect: bool, answer: Outcome)
    requires Inv(s) && Enabled(s, Dispatch(d, effect, answer)) && DriverOk(s, d)
    ensures answer.Success? ==> HasItsPullRequest(Apply(s, Dispatch(d, effect, answer)).provider, s.rows[s.drivers[d].id].request)
  {
    var r := s.rows[s.drivers[d].id].request;
    if answer.Success? && r.CreatePullRequest? {
      CreateThenObserve(s.provider, r);
    }
  }

  lemma SettleKeepsInv(s: Sys, d: nat, fenced: bool)
    requires Inv(s) && Enabled(s, Settle(d, fenced))
    ensures Inv(Apply(s, Settle(d, fenced))) && Grows(s, Apply(s, Settle(d, fenced)))
  {
    hide Inv, Grows, HasItsPullRequest, Finalize, BoundedWait;
    DriverFacts(s, d);
    var x := s.drivers[d];
    match x.outcome
    case Success(_) => FinalizeKeepsInv(s, d, x.id, Succeeded, x.revision, fenced);
    case Waiting => BoundedWaitKeepsInv(s, d, x.id, x.revision, x.attempts, fenced);
    case Unavailable => BoundedWaitKeepsInv(s, d, x.id, x.revision, x.attempts, fenced);
    case RateLimited => BoundedWaitKeepsInv(s, d, x.id, x.revision, x.attempts, fenced);
    case _ => FinalizeKeepsInv(s, d, x.id, Failed, x.revision, fenced);
  }

  lemma ReadingKeepsInv(s: Sys, a: Action)
    requires Inv(s) && Enabled(s, a) && (a.Expire? || a.Deny? || a.Authorize? || a.Start?)
    ensures Inv(Apply(s, a)) && Grows(s, Apply(s, a))
  {
    hide Inv, Grows, HasItsPullRequest, RowOk;
    var t := Apply(s, a);
    var x := s.drivers[a.d];
    DriverFacts(s, a.d);
    Budgeted(s, x.id);
    if t.rows == s.rows {
      QuietKeepsInv(s, t, a.d);
    } else {
      var to := if a.Expire? then Blocked else if a.Deny? then Denied else if a.Authorize? then Authorized else Executing;
      CasKeepsInv(s, t, x.id, to, s.rows[x.id].attempts, a.d);
    }
  }

  lemma ProbeKeepsInv(s: Sys, d: nat, readable: bool)
    requires Inv(s) && Enabled(s, Probe(d, readable))
    ensures Inv(Apply(s, Probe(d, readable))) && Grows(s, Apply(s, Probe(d, readable)))
  {
    hide Inv, Grows;
    DriverFacts(s, d);
    QuietKeepsInv(s, Apply(s, Probe(d, readable)), d);
  }

  lemma SettleProbeKeepsInv(s: Sys, d: nat, fenced: bool)
    requires Inv(s) && Enabled(s, SettleProbe(d, fenced))
    ensures Inv(Apply(s, SettleProbe(d, fenced))) && Grows(s, Apply(s, SettleProbe(d, fenced)))
  {
    hide Inv, Grows, HasItsPullRequest, RowOk;
    var t := Apply(s, SettleProbe(d, fenced));
    var x := s.drivers[d];
    DriverFacts(s, d);
    Budgeted(s, x.id);
    if t.rows == s.rows {
      QuietKeepsInv(s, t, d);
    } else {
      CasKeepsInv(s, t, x.id, Succeeded, s.rows[x.id].attempts, d);
    }
  }

  lemma ForeignKeepsInv(s: Sys, w: World)
    requires Inv(s) && Enabled(s, Foreign(w))
    ensures Inv(Apply(s, Foreign(w))) && Grows(s, Apply(s, Foreign(w)))
  {
    hide RowOk, HasItsPullRequest, NoDuplicates, Keeps;
    var t := Apply(s, Foreign(w));
    forall e: nat ensures DriverOk(t, e) {
      assert DriverOk(s, e);
      UntouchedDriver(s, t, e);
    }
    forall id | id in t.rows ensures t.rows[id].state == Succeeded ==> HasItsPullRequest(t.provider, t.rows[id].request) {
      if s.rows[id].state == Succeeded {
        CreatedStays(s.provider, w, s.rows[id].request);
      }
    }
  }

  lemma SubmitKeepsInv(s: Sys, a: Action)
    requires Inv(s) && Enabled(s, a) && a.Submit?
    ensures Inv(Apply(s, a)) && Grows(s, Apply(s, a))
  {
    hide HasItsPullRequest, NoDuplicates;
    var t := Apply(s, a);
    KeepsSelf(s.provider);
    forall e: nat ensures DriverOk(t, e) {
      assert DriverOk(s, e);
      UntouchedDriver(s, t, e);
    }
  }

  lemma StepKeepsInv(s: Sys, a: Action)
    requires Inv(s) && Enabled(s, a)
    ensures Inv(Apply(s, a)) && Grows(s, Apply(s, a))
  {
    hide Inv, Grows, Finalize, BoundedWait, Perform, Observe, RowOk;
    match a
    case Submit(_, _, _) => SubmitKeepsInv(s, a);
    case Read(d, _, _, _) => QuietKeepsInv(s, Apply(s, a), d);
    case Refuse(d, to, fenced) => FinalizeKeepsInv(s, d, s.drivers[d].id, to, s.drivers[d].revision, fenced);
    case Dispatch(d, effect, answer) => DispatchKeepsInv(s, d, effect, answer);
    case Settle(d, fenced) => SettleKeepsInv(s, d, fenced);
    case Probe(d, readable) => ProbeKeepsInv(s, d, readable);
    case SettleProbe(d, fenced) => SettleProbeKeepsInv(s, d, fenced);
    case Crash(d) => QuietKeepsInv(s, Apply(s, a), d);
    case Foreign(w) => ForeignKeepsInv(s, w);
    case _ => ReadingKeepsInv(s, a);
  }

  // ------------------------------------------------------------------ what every run guarantees

  lemma InitInv(s: Sys)
    requires Init(s)
    ensures Inv(s)
  {
  }

  lemma GrowsSelf(s: Sys)
    ensures Grows(s, s)
  {
  }

  lemma GrowsTrans(s: Sys, t: Sys, u: Sys)
    requires Grows(s, t) && Grows(t, u)
    ensures Grows(s, u)
  {
  }

  lemma {:induction false} InvAlongRun(s: Sys, acts: seq<Action>)
    requires Inv(s) && Runs(s, acts)
    ensures Inv(After(s, acts)) && Grows(s, After(s, acts))
    decreases |acts|
  {
    hide Inv, Enabled, Apply, Grows;
    if acts == [] {
      GrowsSelf(s);
    } else {
      StepKeepsInv(s, acts[0]);
      InvAlongRun(Apply(s, acts[0]), acts[1..]);
      GrowsTrans(s, Apply(s, acts[0]), After(s, acts));
    }
  }

  lemma {:induction false} DistinctInSet(q: seq<nat>, e: set<nat>)
    requires Distinct(q) && forall x :: x in q ==> x in e
    ensures |q| <= |e|
  {
    if q != [] {
      var x := q[|q|-1];
      forall y | y in q[..|q|-1] ensures y in e - {x} {
        var i :| 0 <= i < |q| - 1 && q[i] == y;
      }
      DistinctInSet(q[..|q|-1], e - {x});
      assert |e - {x}| == |e| - 1;
    }
  }

  /** Over every interleaving of authorization, execution, redrive, reconciliation, expiry, lost fences and
      crashes, a request is dispatched at most nine times and makes at most nineteen transitions. */
  lemma DispatchBound(s: Sys, acts: seq<Action>, id: nat)
    requires Init(s) && Runs(s, acts) && id in After(s, acts).rows
    ensures var r := After(s, acts).rows[id];
            |r.dispatched| <= 1 + MAX_RETRY_ATTEMPTS && r.revision <= 3 + 2 * MAX_RETRY_ATTEMPTS
  {
    hide Runs, After, Inv;
    InitInv(s);
    InvAlongRun(s, acts);
    Budgeted(After(s, acts), id);
    var r := After(s, acts).rows[id];
    DistinctInSet(r.dispatched, r.entered);
  }

  function StateRank(st: RequestState): nat {
    match st
    case Pending => 4
    case Authorized => 3
    case WaitingExternal => 2
    case Executing => 1
    case _ => 0
  }

  /** One transition on the edge map that uses up the measure (attempts left, state rank), or none. */
  predicate LegalMove(r: Row, t: Row) {
    t.(dispatched := r.dispatched) != r ==>
      && t.state in Edges(r.state) && t.revision == r.revision + 1
      && r.attempts <= t.attempts <= MAX_RETRY_ATTEMPTS
      && (t.attempts == r.attempts ==> StateRank(t.state) < StateRank(r.state))
  }

  lemma FinalizeIsLegal(s: Sys, d: nat, id: nat, to: RequestState, revision: nat, fenced: bool, k: nat)
    requires Inv(s) && k in s.rows && to in {Succeeded, Failed, Blocked}
    ensures k in Finalize(s, d, id, to, revision, fenced).rows && LegalMove(s.rows[k], Finalize(s, d, id, to, revision, fenced).rows[k])
  {
    Budgeted(s, k);
  }

  lemma WaitIsLegal(s: Sys, d: nat, id: nat, revision: nat, attempts: nat, fenced: bool, k: nat)
    requires Inv(s) && k in s.rows && d in s.drivers && s.drivers[d].Answered? && s.drivers[d] == Answered(id, revision, attempts, s.drivers[d].outcome)
    ensures k in BoundedWait(s, d, id, revision, attempts, fenced).rows
    ensures LegalMove(s.rows[k], BoundedWait(s, d, id, revision, attempts, fenced).rows[k])
  {
    hide Finalize;
    DriverFacts(s, d);
    Budgeted(s, k);
    FinalizeIsLegal(s, d, id, Failed, revision, fenced, k);
  }

  /** Every transition follows the edge map, and uses up a lexicographic measure of the attempts left and the
      state. */
  lemma StepFollowsEdgeMap(s: Sys, a: Action, id: nat)
    requires Inv(s) && Enabled(s, a) && id in s.rows
    ensures id in Apply(s, a).rows && LegalMove(s.rows[id], Apply(s, a).rows[id])
  {
    hide Perform, Observe, NoDuplicates, Keeps, Finalize, BoundedWait, Inv, LegalMove;
    match a
    case Refuse(d, to, fenced) => FinalizeIsLegal(s, d, s.drivers[d].id, to, s.drivers[d].revision, fenced, id);
    case Settle(d, fenced) =>
      var x := s.drivers[d];
      FinalizeIsLegal(s, d, x.id, Succeeded, x.revision, fenced, id);
      FinalizeIsLegal(s, d, x.id, Failed, x.revision, fenced, id);
      WaitIsLegal(s, d, x.id, x.revision, x.attempts, fenced, id);
    case _ => OtherStepIsLegal(s, a, id);
  }

  lemma CasIsLegal(s: Sys, id: nat, to: RequestState, k: nat)
    requires Inv(s) && id in s.rows && k in s.rows && to in Edges(s.rows[id].state) && to != WaitingExternal
    ensures k in Cas(s, id, to, s.rows[id].attempts).rows && LegalMove(s.rows[k], Cas(s, id, to, s.rows[id].attempts).rows[k])
  {
    Budgeted(s, k);
  }

  lemma OtherStepIsLegal(s: Sys, a: Action, id: nat)
    requires Inv(s) && Enabled(s, a) && id in s.rows && !a.Refuse? && !a.Settle?
    ensures id in Apply(s, a).rows && LegalMove(s.rows[id], Apply(s, a).rows[id])
  {
    hide Perform, Observe, NoDuplicates, Keeps, Inv, Finalize, BoundedWait, IsExpired, Cas, Edges;
    var targets := {Blocked, Denied, Authorized, Executing, Succeeded};
    if DriverOf(a).Some? && DriverOf(a).value in s.drivers {
      var x := s.drivers[DriverOf(a).value].id;
      forall to | to in targets && x in s.rows && to in Edges(s.rows[x].state)
        ensures id in Cas(s, x, to, s.rows[x].attempts).rows && LegalMove(s.rows[id], Cas(s, x, to, s.rows[x].attempts).rows[id])
      {
        CasIsLegal(s, x, to, id);
      }
    }
  }

  /** A terminal request is never reopened, whatever follows. */
  lemma TerminalIsForever(s: Sys, acts: seq<Action>, id: nat)
    requires Inv(s) && Runs(s, acts) && id in s.rows && IsTerminal(s.rows[id].state)
    ensures id in After(s, acts).rows
    ensures var r, t := s.rows[id], After(s, acts).rows[id]; t.state == r.state && t.revision == r.revision && t.attempts == r.attempts
    decreases |acts|
  {
    hide Inv, Enabled, Apply;
    if acts != [] {
      StepKeepsInv(s, acts[0]);
      StepFollowsEdgeMap(s, acts[0], id);
      TerminalIsForever(Apply(s, acts[0]), acts[1..], id);
    }
  }

  /** At most one Argent-owned pull request ever exists per repository, branches, head commit and idempotency
      key, and every create that ended in SUCCEEDED has its pull request. */
  lemma OnePullRequest(s: Sys, acts: seq<Action>)
    requires Init(s) && Runs(s, acts)
    ensures var t := After(s, acts);
            && (forall n: nat, m: nat, id | Matches(t.provider, n, id) && Matches(t.provider, m, id) :: n == m)
            && (forall id | id in t.rows && t.rows[id].state == Succeeded && t.rows[id].request.CreatePullRequest? ::
                  Created(t.provider, t.rows[id].request.identity))
  {
    hide Runs, After, Created;
    InitInv(s);
    InvAlongRun(s, acts);
  }

  /** Reconciliation finishes a create only on evidence: it moves a row exactly when its probe found the object
      and the row is as it was read, and then the pull request is there. */
  lemma ReconcileNeedsEvidence(s: Sys, d: nat)
    requires Inv(s) && Enabled(s, SettleProbe(d, true))
    ensures var x := s.drivers[d];
            && x.id in s.rows
            && (Apply(s, SettleProbe(d, true)).rows != s.rows <==> x.found.Some? && s.rows[x.id].revision == x.revision)
            && (Apply(s, SettleProbe(d, true)).rows != s.rows ==>
                  && Apply(s, SettleProbe(d, true)).rows[x.id].state == Succeeded
                  && HasItsPullRequest(s.provider, s.rows[x.id].request))
  {
    hide HasItsPullRequest;
    DriverFacts(s, d);
  }

  /** A policy denial of a request that is already in flight changes nothing, because DENIED is no edge from there,
      yet it leaves an EXECUTED / POLICY_DENIED audit row; it takes effect exactly on a current PENDING or AUTHORIZED row. */
  lemma DenyTakesEffectExactly(s: Sys, d: nat)
    requires Inv(s) && Enabled(s, Deny(d))
    ensures var x := s.drivers[d];
            var t := Apply(s, Deny(d));
            && (t.rows != s.rows <==> s.rows[x.id].revision == x.revision && x.state in {Pending, Authorized})
            && t.audit == s.audit + [ExecutedAudit(x.id, PolicyDenied)]
  {
    DriverFacts(s, d);
  }

  // ------------------------------------------------------------------ the bound is reached

  lemma {:induction false} RunsConcat(s: Sys, a: seq<Action>, b: seq<Action>)
    requires Runs(s, a) && Runs(After(s, a), b)
    ensures Runs(s, a + b) && After(s, a + b) == After(After(s, a), b)
    decreases |a|
  {
    hide Enabled, Apply;
    if a == [] {
      assert a + b == b;
    } else {
      assert (a + b)[0] == a[0] && (a + b)[1..] == a[1..] + b;
      RunsConcat(Apply(s, a[0]), a[1..], b);
    }
  }

  lemma RunsFour(s: Sys, a: Action, b: Action, c: Action, e: Action)
    requires Enabled(s, a) && Enabled(Apply(s, a), b) && Enabled(Apply(Apply(s, a), b), c) && Enabled(Apply(Apply(Apply(s, a), b), c), e)
    ensures Runs(s, [a, b, c, e]) && After(s, [a, b, c, e]) == Apply(Apply(Apply(Apply(s, a), b), c), e)
  {
    hide Enabled, Apply;
    var s1 := Apply(s, a);
    var s2 := Apply(s1, b);
    var s3 := Apply(s2, c);
    var s4 := Apply(s3, e);
    assert Runs(s4, []) && After(s4, []) == s4;
    assert [e][1..] == [] && Runs(s3, [e]) && After(s3, [e]) == s4;
    assert [c, e][1..] == [e] && Runs(s2, [c, e]) && After(s2, [c, e]) == s4;
    assert [b, c, e][1..] == [c, e] && Runs(s1, [b, c, e]) && After(s1, [b, c, e]) == s4;
    assert [a, b, c, e][1..] == [b, c, e];
  }

  /** One more round against a provider that stays unavailable. */
  lemma FailedRound(s: Sys, id: nat) returns (acts: seq<Action>)
    requires id in s.rows && 0 !in s.drivers && s.rows[id].expiresAt == None
    requires (s.rows[id].state == Authorized && s.rows[id].attempts == 0) || (s.rows[id].state == WaitingExternal && s.rows[id].attempts <= MAX_RETRY_ATTEMPTS)
    ensures Runs(s, acts)
    ensures var r := s.rows[id];
            var t := After(s, acts);
            && id in t.rows && 0 !in t.drivers && t.rows[id].expiresAt == None
            && t.rows[id].revision == r.revision + 2 && |t.rows[id].dispatched| == |r.dispatched| + 1
            && (r.attempts < MAX_RETRY_ATTEMPTS ==> t.rows[id].state == WaitingExternal && t.rows[id].attempts == r.attempts + 1)
            && (r.attempts == MAX_RETRY_ATTEMPTS ==> t.rows[id].state == Failed)
  {
    hide Runs, After, Perform, Observe;
    var a := Read(0, id, if s.rows[id].state == Authorized then ForExecute else ForRedrive, 0);
    var b, c, e := Start(0, true), Dispatch(0, false, Unavailable), Settle(0, true);
    acts := [a, b, c, e];
    var s1 := Apply(s, a);
    var s2 := Apply(s1, b);
    var s3 := Apply(s2, c);
    RunsFour(s, a, b, c, e);
  }

  lemma {:induction false} Exhaust(s: Sys, id: nat) returns (acts: seq<Action>)
    requires id in s.rows && 0 !in s.drivers && s.rows[id].expiresAt == None
    requires (s.rows[id].state == Authorized && s.rows[id].attempts == 0) || (s.rows[id].state == WaitingExternal && s.rows[id].attempts <= MAX_RETRY_ATTEMPTS)
    ensures Runs(s, acts) && id in After(s, acts).rows
    ensures var r, t := s.rows[id], After(s, acts).rows[id];
            && |t.dispatched| == |r.dispatched| + 1 + MAX_RETRY_ATTEMPTS - r.attempts
            && t.revision == r.revision + 2 * (1 + MAX_RETRY_ATTEMPTS - r.attempts) && t.state == Failed
    decreases MAX_RETRY_ATTEMPTS - s.rows[id].attempts
  {
    hide Enabled, Apply;
    acts := FailedRound(s, id);
    if s.rows[id].attempts < MAX_RETRY_ATTEMPTS {
      var more := Exhaust(After(s, acts), id);
      RunsConcat(s, acts, more);
      acts := acts + more;
    }
  }

  /** The dispatch bound is exact: some run dispatches one request nine times, in nineteen transitions. */
  lemma BudgetIsTight(s: Sys, request: Request) returns (acts: seq<Action>)
    requires Init(s)
    ensures Runs(s, acts) && 0 in After(s, acts).rows
    ensures var r := After(s, acts).rows[0]; |r.dispatched| == 1 + MAX_RETRY_ATTEMPTS && r.revision == 3 + 2 * MAX_RETRY_ATTEMPTS
  {
    var a, b, c := Submit(0, request, None), Read(0, 0, ForAuthorize, 0), Authorize(0);
    var s1 := Apply(s, a);
    var s2 := Apply(s1, b);
    var s3 := Apply(s2, c);
    assert s3.drivers == map[];
    RunsFour(s, a, b, c, Crash(0));
    acts := [a, b, c, Crash(0)];
    var more := Exhaust(After(s, acts), 0);
    RunsConcat(s, acts, more);
    acts := acts + more;
  }
}
