/**
 The broker's procedures (argent_core/external_action_broker.py): authorize, execute, redrive and reconcile.
 Other drivers, lost fences and provider changes may come between any two of their steps; every execution is a
 run of the state machine of module Broker.
 */
module BrokerDriver {
  import opened Wrappers
  import opened Provider
  import opened Broker
  import opened Settlement

  /** The steps of one driver in a run. */
  function StepsOf(acts: seq<Action>, d: nat): seq<Action> {
    if acts == [] then []
    else
      var last := acts[|acts|-1];
      StepsOf(acts[..|acts|-1], d) + (if DriverOf(last) == Some(d) then [last] else [])
  }

  /** How the provider answers a dispatched request; a lost answer comes after the effect. */
  datatype Reply = Performed | Lost | Failing(outcome: Outcome)

  /** What the broker is told on its way: the policy, the fences, the adapter's write switch, the source job, the provider. */
  datatype Answers = Answers(denied: bool, fenced: bool, writable: bool, sourceDone: bool, reply: Reply, fencedLater: bool)

  /** A drive: the transition into EXECUTING, and if it was won, a refusal or one dispatch and its settlement. */
  predicate DriveSteps(d: nat, w: Answers, won: bool, answer: Outcome, steps: seq<Action>) {
    steps ==
    if !won then [Start(d, w.fenced)]
    else if !w.writable then [Start(d, w.fenced), Refuse(d, Failed, w.fencedLater)]
    else if !w.sourceDone then [Start(d, w.fenced), Refuse(d, Blocked, w.fencedLater)]
    else [Start(d, w.fenced), Dispatch(d, !w.reply.Failing?, answer), Settle(d, w.fencedLater)]
  }

  /** The answer a dispatch gets from the provider that `sent` holds. */
  predicate AnsweredBy(w: Answers, sent: Sys, id: nat, answer: Outcome) {
    && id in sent.rows
    && match w.reply
       case Performed => answer == Provider.Perform(sent.provider, sent.rows[id].request).1
       case Lost => answer == Unavailable
       case Failing(outcome) => answer == outcome
  }

  /** How a won drive leaves the row that `r` was when the last step was taken. */
  predicate DriveEnds(w: Answers, answer: Outcome, r: Row, t: Row, revision: nat) {
    if !w.writable then Moves(r, t, Executing, revision, Failed, w.fencedLater)
    else if !w.sourceDone then Moves(r, t, Executing, revision, Blocked, w.fencedLater)
    else Settles(r, t, revision, answer, w.fencedLater)
  }

  /** What became of the row of a drive: `first`, `sent` and `last` are the stores its first step, its dispatch and its last
      step found. */
  ghost predicate DriveResult(x: Driver, w: Answers, won: bool, answer: Outcome, first: Sys, sent: Sys, last: Sys, t: Sys)
    requires x.Reading?
  {
    && x.id in first.rows && x.id in last.rows && x.id in t.rows
    && (won <==> w.fenced && first.rows[x.id].state == x.state && first.rows[x.id].revision == x.revision)
    && (won ==> DriveEnds(w, answer, last.rows[x.id], t.rows[x.id], x.revision + 1))
    && (won && w.writable && w.sourceDone ==> AnsweredBy(w, sent, x.id, answer))
    && (!won ==> t.rows[x.id] == first.rows[x.id])
  }

  class Environment {
    var sys: Sys
    ghost var origin: Sys
    ghost var trace: seq<Action>

    ghost predicate Valid()
      reads this
    {
      Init(origin) && Runs(origin, trace) && sys == After(origin, trace) && Inv(sys)
    }

    constructor (s: Sys)
      requires Init(s)
      ensures Valid() && sys == origin == s && trace == []
    {
      sys, origin, trace := s, s, [];
      new;
      InitInv(s);
    }

    /** Anything others do that leaves driver `d` alone. */
    method Interfere(d: nat)
      requires Valid()
      modifies this
      ensures Valid() && origin == old(origin) && Broker.Grows(old(sys), sys)
      ensures StepsOf(trace, d) == StepsOf(old(trace), d)
      ensures (d in sys.drivers <==> d in old(sys).drivers) && (d in sys.drivers ==> sys.drivers[d] == old(sys).drivers[d])
    {
      GrowsSelf(sys);
    }

    method Perform(a: Action)
      requires Valid() && Enabled(sys, a)
      modifies this
      ensures Valid() && origin == old(origin) && trace == old(trace) + [a] && sys == Apply(old(sys), a)
      ensures Broker.Grows(old(sys), sys)
      ensures DriverOf(a).Some? ==> StepsOf(trace, DriverOf(a).value) == StepsOf(old(trace), DriverOf(a).value) + [a]
    {
      hide Inv, Runs, After, Apply, Enabled, Broker.Grows, Init;
      RunsSnoc(origin, trace, a);
      StepKeepsInv(sys, a);
      sys := Apply(sys, a);
      trace := trace + [a];
    }
  }

  lemma RunsSnoc(s: Sys, acts: seq<Action>, a: Action)
    requires Runs(s, acts) && Enabled(After(s, acts), a)
    ensures Runs(s, acts + [a]) && After(s, acts + [a]) == Apply(After(s, acts), a)
  {
    hide Enabled, Apply;
    var t := Apply(After(s, acts), a);
    assert Runs(t, []) && After(t, []) == t;
    assert [a][1..] == [];
    RunsConcat(s, acts, [a]);
  }

  /** A terminal row, and the pull request behind it if it is a succeeded create. */
  ghost predicate Trustworthy(s: Sys, id: nat) {
    id in s.rows && (s.rows[id].state == Succeeded ==> HasItsPullRequest(s.provider, s.rows[id].request))
  }

  class ExternalActionBroker {
    constructor () {
    }

    /** `_drive`: into EXECUTING, one call of the provider, and the settlement. */
    method Drive(env: Environment, d: nat, w: Answers)
      returns (ghost won: bool, ghost answer: Outcome, ghost steps: seq<Action>, ghost first: Sys, ghost sent: Sys, ghost last: Sys)
      requires env.Valid() && IsReading(env.sys, d, {ForExecute, ForRedrive}) && !env.sys.drivers[d].expired
      requires w.reply.Failing? ==> !w.reply.outcome.Success?
      modifies env
      ensures env.Valid() && env.origin == old(env.origin) && Broker.Grows(old(env.sys), env.sys) && d !in env.sys.drivers
      ensures StepsOf(env.trace, d) == StepsOf(old(env.trace), d) + steps
      ensures DriveSteps(d, w, won, answer, steps) && (won ==> w.fenced)
      ensures Broker.Grows(old(env.sys), first) && Broker.Grows(old(env.sys), last) && Broker.Grows(old(env.sys), sent)
      ensures DriveResult(old(env.sys).drivers[d], w, won, answer, first, sent, last, env.sys)
    {
      hide Inv, Runs, After, Broker.Grows, Init, Apply, Perform, StepsOf, Settles, Moves;
      answer := if w.reply.Failing? then w.reply.outcome else Unavailable;
      env.Interfere(d);
      label L:
      first, sent, last := env.sys, env.sys, env.sys;
      DrivingRow(env.sys, d);
      StartMeans(env.sys, d, w.fenced);
      StartEffect(env.sys, d, w.fenced);
      env.Perform(Start(d, w.fenced));
      GrowsTrans(old(env.sys), first, env.sys);
      won := d in env.sys.drivers;
      steps := [Start(d, w.fenced)];
      if d !in env.sys.drivers {
        LostMeans(first, env.sys, old(env.sys).drivers[d], w.fenced);
        return;
      }
      label M:
      ghost var rest;
      if !w.writable || !w.sourceDone {
        var to := if !w.writable then Failed else Blocked;
        last := RefuseRow(env, d, to, w.fencedLater);
        rest := [Refuse(d, to, w.fencedLater)];
      } else {
        answer, rest, sent, last := DispatchAndSettle(env, d, w);
        GrowsTrans(old(env.sys), old@M(env.sys), sent);
      }
      GrowsTrans(old(env.sys), old@M(env.sys), last);
      GrowsTrans(old(env.sys), old@M(env.sys), env.sys);
      steps := steps + rest;
    }

    method RefuseRow(env: Environment, d: nat, to: RequestState, fenced: bool) returns (ghost last: Sys)
      requires env.Valid() && d in env.sys.drivers && env.sys.drivers[d].Driving? && to in {Failed, Blocked}
      modifies env
      ensures env.Valid() && env.origin == old(env.origin) && Broker.Grows(old(env.sys), env.sys) && d !in env.sys.drivers
      ensures StepsOf(env.trace, d) == StepsOf(old(env.trace), d) + [Refuse(d, to, fenced)]
      ensures Broker.Grows(old(env.sys), last)
      ensures var x := old(env.sys).drivers[d];
              x.id in last.rows && x.id in env.sys.rows && Moves(last.rows[x.id], env.sys.rows[x.id], Executing, x.revision, to, fenced)
    {
      hide Inv, Runs, After, Broker.Grows, Init, Apply, Perform, StepsOf, Moves;
      env.Interfere(d);
      last := env.sys;
      RefuseEffect(env.sys, d, to, fenced);
      RefuseMeans(env.sys, d, to, fenced);
      env.Perform(Refuse(d, to, fenced));
      GrowsTrans(old(env.sys), last, env.sys);
    }

    method DispatchAndSettle(env: Environment, d: nat, w: Answers) returns (answer: Outcome, ghost steps: seq<Action>, ghost sent: Sys, ghost last: Sys)
      requires env.Valid() && d in env.sys.drivers && env.sys.drivers[d].Driving?
      requires w.reply.Failing? ==> !w.reply.outcome.Success?
      modifies env
      ensures env.Valid() && env.origin == old(env.origin) && Broker.Grows(old(env.sys), env.sys) && d !in env.sys.drivers
      ensures StepsOf(env.trace, d) == StepsOf(old(env.trace), d) + steps
      ensures steps == [Dispatch(d, !w.reply.Failing?, answer), Settle(d, w.fencedLater)]
      ensures Broker.Grows(old(env.sys), last) && Broker.Grows(old(env.sys), sent)
      ensures AnsweredBy(w, sent, old(env.sys).drivers[d].id, answer)
      ensures var x := old(env.sys).drivers[d];
              x.id in last.rows && x.id in env.sys.rows && Settles(last.rows[x.id], env.sys.rows[x.id], x.revision, answer, w.fencedLater)
    {
      hide Inv, Runs, After, Broker.Grows, Init, Apply, Perform, StepsOf, Settles;
      env.Interfere(d);
      label N:
      sent := env.sys;
      DrivingRow(env.sys, d);
      match w.reply {
        case Performed => answer := Provider.Perform(env.sys.provider, env.sys.rows[env.sys.drivers[d].id].request).1;
        case Lost => answer := Unavailable;
        case Failing(outcome) => answer := outcome;
      }
      DispatchEffect(env.sys, d, !w.reply.Failing?, answer);
      DispatchMeans(env.sys, d, !w.reply.Failing?, answer);
      env.Perform(Dispatch(d, !w.reply.Failing?, answer));
      GrowsTrans(old(env.sys), old@N(env.sys), env.sys);
      label O:
      env.Interfere(d);
      last := env.sys;
      GrowsTrans(old(env.sys), old@O(env.sys), last);
      SettleEffect(env.sys, d, w.fencedLater);
      SettleMeans(env.sys, d, w.fencedLater);
      env.Perform(Settle(d, w.fencedLater));
      GrowsTrans(old(env.sys), last, env.sys);
      steps := [Dispatch(d, !w.reply.Failing?, answer), Settle(d, w.fencedLater)];
    }

    /** `execute` and `redrive_waiting`: expiry first, then policy, then the drive.  `None` is a raised error; it and
        a terminal row leave everything as it was. */
    method Execute(env: Environment, d: nat, id: nat, purpose: Purpose, now: int, w: Answers)
      returns (state: Option<RequestState>, ghost won: bool, ghost answer: Outcome, ghost steps: seq<Action>, ghost first: Sys, ghost sent: Sys, ghost last: Sys)
      requires env.Valid() && d !in env.sys.drivers && purpose in {ForExecute, ForRedrive}
      requires w.reply.Failing? ==> !w.reply.outcome.Success?
      modifies env
      ensures env.Valid() && env.origin == old(env.origin) && Broker.Grows(old(env.sys), env.sys) && d !in env.sys.drivers
      ensures state.Some? ==> Trustworthy(env.sys, id) && state.value == env.sys.rows[id].state
      ensures StepsOf(env.trace, d) == StepsOf(old(env.trace), d) + steps
      ensures var found := id in old(env.sys).rows;
              var takes := if purpose == ForExecute then Authorized else WaitingExternal;
              && (state == None <==> !found || !(IsTerminal(old(env.sys).rows[id].state) || old(env.sys).rows[id].state == takes))
              && (!found || old(env.sys).rows[id].state != takes ==> env.sys == old(env.sys) && steps == [])
              && (found && old(env.sys).rows[id].state == takes ==>
                    && steps != [] && steps[0] == Read(d, id, purpose, now)
                    && var r := old(env.sys).rows[id];
                       if IsExpired(r, now) then steps[1..] == [Expire(d)] && state == Some(Blocked)
                       else if w.denied then steps[1..] == [Deny(d)] && state == Some(if takes == Authorized then Denied else WaitingExternal)
                       else && DriveSteps(d, w, won, answer, steps[1..])
                            && Broker.Grows(old(env.sys), first) && Broker.Grows(old(env.sys), sent) && Broker.Grows(old(env.sys), last)
                            && DriveResult(Reading(id, purpose, r.state, r.revision, r.attempts, false), w, won, answer, first, sent, last, env.sys))
    {
      hide Inv, Runs, After, Broker.Grows, Init, Apply, StepsOf, DriveSteps, DriveResult, Moves;
      GrowsSelf(env.sys);
      won, answer, steps, first, sent, last := false, Unavailable, [], env.sys, env.sys, env.sys;
      if id !in env.sys.rows {
        state := None;
        return;
      }
      RowStays(env.sys, env.sys, id);
      var r := env.sys.rows[id];
      if IsTerminal(r.state) {
        state := Some(r.state);
        return;
      }
      if r.state != (if purpose == ForExecute then Authorized else WaitingExternal) {
        state := None;
        return;
      }
      ReadEffect(env.sys, d, id, purpose, now);
      env.Perform(Read(d, id, purpose, now));
      steps := [Read(d, id, purpose, now)];
      label L:
      ghost var rest;
      if env.sys.drivers[d].expired {
        EndEffect(env.sys, d);
        EndMeans(env.sys, d, id);
        env.Perform(Expire(d));
        rest := [Expire(d)];
      } else if w.denied {
        EndEffect(env.sys, d);
        EndMeans(env.sys, d, id);
        env.Perform(Deny(d));
        rest := [Deny(d)];
      } else {
        won, answer, rest, first, sent, last := Drive(env, d, w);
        GrowsTrans(old(env.sys), old@L(env.sys), sent);
        GrowsTrans(old(env.sys), old@L(env.sys), first);
        GrowsTrans(old(env.sys), old@L(env.sys), last);
      }
      steps := steps + rest;
      GrowsTrans(old(env.sys), old@L(env.sys), env.sys);
      RowStays(old(env.sys), env.sys, id);
      state := Some(env.sys.rows[id].state);
    }

    /** `_reconcile_locked`: the probe, and the transition it justifies. */
    method ReconcileLocked(env: Environment, d: nat, readable: bool, fenced: bool)
      requires env.Valid() && IsReading(env.sys, d, {ForReconcile}) && !env.sys.drivers[d].expired
      modifies env
      ensures env.Valid() && env.origin == old(env.origin) && Broker.Grows(old(env.sys), env.sys) && d !in env.sys.drivers
      ensures StepsOf(env.trace, d) == StepsOf(old(env.trace), d) + [Probe(d, readable), SettleProbe(d, fenced)]
    {
      hide Inv, Runs, After, Broker.Grows, Init, Apply, StepsOf;
      ProbeEffect(env.sys, d, readable);
      env.Perform(Probe(d, readable));
      label M:
      env.Interfere(d);
      label N:
      GrowsTrans(old(env.sys), old@M(env.sys), env.sys);
      SettleProbeEffect(env.sys, d, fenced);
      env.Perform(SettleProbe(d, fenced));
      GrowsTrans(old(env.sys), old@N(env.sys), env.sys);
    }

    /** `reconcile`: expiry first, then the probe, and success only on what it found.  `None` is an unknown request. */
    method Reconcile(env: Environment, d: nat, id: nat, now: int, readable: bool, fenced: bool)
      returns (state: Option<RequestState>, ghost steps: seq<Action>)
      requires env.Valid() && d !in env.sys.drivers
      modifies env
      ensures env.Valid() && env.origin == old(env.origin) && Broker.Grows(old(env.sys), env.sys) && d !in env.sys.drivers
      ensures state.Some? ==> Trustworthy(env.sys, id) && state.value == env.sys.rows[id].state
      ensures state == None <==> id !in old(env.sys).rows
      ensures StepsOf(env.trace, d) == StepsOf(old(env.trace), d) + steps
      ensures if id !in old(env.sys).rows || old(env.sys).rows[id].state !in {Executing, WaitingExternal} then
                env.sys == old(env.sys) && steps == []
              else if IsExpired(old(env.sys).rows[id], now) then steps == [Read(d, id, ForReconcile, now), Expire(d)] && state == Some(Blocked)
              else steps == [Read(d, id, ForReconcile, now), Probe(d, readable), SettleProbe(d, fenced)]
    {
      hide Inv, Runs, After, Broker.Grows, Init, Apply, StepsOf;
      GrowsSelf(env.sys);
      steps := [];
      if id !in env.sys.rows {
        state := None;
        return;
      }
      RowStays(env.sys, env.sys, id);
      if env.sys.rows[id].state !in {Executing, WaitingExternal} {
        state := Some(env.sys.rows[id].state);
        return;
      }
      ReadEffect(env.sys, d, id, ForReconcile, now);
      env.Perform(Read(d, id, ForReconcile, now));
      label L:
      if env.sys.drivers[d].expired {
        EndEffect(env.sys, d);
        ExpireMeans(env.sys, d);
        env.Perform(Expire(d));
        GrowsTrans(old(env.sys), old@L(env.sys), env.sys);
        steps := [Read(d, id, ForReconcile, now), Expire(d)];
      } else {
        ReconcileLocked(env, d, readable, fenced);
        GrowsTrans(old(env.sys), old@L(env.sys), env.sys);
        steps := [Read(d, id, ForReconcile, now), Probe(d, readable), SettleProbe(d, fenced)];
      }
      RowStays(old(env.sys), env.sys, id);
      state := Some(env.sys.rows[id].state);
    }
  }

  // ------------------------------------------------------------------ what single steps do to their driver

  lemma RowStays(s: Sys, t: Sys, id: nat)
    requires Broker.Grows(s, t) && Inv(t) && id in s.rows
    ensures Trustworthy(t, id)
  {
  }

  lemma ReadEffect(s: Sys, d: nat, id: nat, purpose: Purpose, now: int)
    requires Enabled(s, Read(d, id, purpose, now))
    ensures var t := Apply(s, Read(d, id, purpose, now));
            && t.rows == s.rows && d in t.drivers && IsReading(t, d, {purpose}) && t.drivers[d].id == id
            && t.drivers[d] == Reading(id, purpose, s.rows[id].state, s.rows[id].revision, s.rows[id].attempts, IsExpired(s.rows[id], now))
  {
  }

  lemma EndEffect(s: Sys, d: nat)
    requires d in s.drivers && s.drivers[d].Reading?
    ensures Enabled(s, Expire(d)) ==> d !in Apply(s, Expire(d)).drivers
    ensures Enabled(s, Deny(d)) ==> d !in Apply(s, Deny(d)).drivers
  {
  }

  /** Expiry and denial of a row just read. */
  lemma EndMeans(s: Sys, d: nat, id: nat)
    requires Inv(s) && d in s.drivers && s.drivers[d].Reading? && s.drivers[d].id == id && id in s.rows
    requires s.drivers[d].purpose in {ForExecute, ForRedrive}
    requires s.drivers[d].state == s.rows[id].state && s.drivers[d].revision == s.rows[id].revision && s.rows[id].state in {Authorized, WaitingExternal}
    ensures Enabled(s, Expire(d)) ==> Apply(s, Expire(d)).rows.Keys == s.rows.Keys && Apply(s, Expire(d)).rows[id].state == Blocked
    ensures Enabled(s, Deny(d)) ==> Apply(s, Deny(d)).rows.Keys == s.rows.Keys
                                    && Apply(s, Deny(d)).rows[id].state == if s.rows[id].state == Authorized then Denied else WaitingExternal
  {
    hide Inv;
  }

  lemma LostMeans(s: Sys, t: Sys, x: Driver, fenced: bool)
    requires x.Reading? && x.id in s.rows && x.id in t.rows && Moves(s.rows[x.id], t.rows[x.id], x.state, x.revision, Executing, fenced)
    requires !(fenced && s.rows[x.id].state == x.state && s.rows[x.id].revision == x.revision)
    ensures t.rows[x.id] == s.rows[x.id]
  {
  }

  lemma StartEffect(s: Sys, d: nat, fenced: bool)
    requires Inv(s) && d in s.drivers && s.drivers[d].Reading? && s.drivers[d].purpose in {ForExecute, ForRedrive} && !s.drivers[d].expired
    ensures Enabled(s, Start(d, fenced))
    ensures d in Apply(s, Start(d, fenced)).drivers ==> fenced && Apply(s, Start(d, fenced)).drivers[d].Driving?
  {
    DriverFacts(s, d);
  }

  lemma DrivingRow(s: Sys, d: nat)
    requires Inv(s) && d in s.drivers
    ensures s.drivers[d].id in s.rows
  {
    DriverFacts(s, d);
  }

  lemma RefuseEffect(s: Sys, d: nat, to: RequestState, fenced: bool)
    requires d in s.drivers && s.drivers[d].Driving? && to in {Failed, Blocked}
    ensures Enabled(s, Refuse(d, to, fenced)) && d !in Apply(s, Refuse(d, to, fenced)).drivers
  {
  }

  lemma DispatchEffect(s: Sys, d: nat, effect: bool, answer: Outcome)
    requires d in s.drivers && s.drivers[d].Driving? && s.drivers[d].id in s.rows
    requires if effect then answer in {Provider.Perform(s.provider, s.rows[s.drivers[d].id].request).1, Unavailable} else !answer.Success?
    ensures Enabled(s, Dispatch(d, effect, answer))
    ensures var t := Apply(s, Dispatch(d, effect, answer)); d in t.drivers && t.drivers[d].Answered?
  {
  }

  lemma SettleEffect(s: Sys, d: nat, fenced: bool)
    requires d in s.drivers && s.drivers[d].Answered?
    ensures Enabled(s, Settle(d, fenced)) && d !in Apply(s, Settle(d, fenced)).drivers
  {
  }

  lemma ProbeEffect(s: Sys, d: nat, readable: bool)
    requires IsReading(s, d, {ForReconcile}) && !s.drivers[d].expired
    ensures Enabled(s, Probe(d, readable))
    ensures var t := Apply(s, Probe(d, readable)); d in t.drivers && t.drivers[d].Probed?
  {
  }

  lemma SettleProbeEffect(s: Sys, d: nat, fenced: bool)
    requires d in s.drivers && s.drivers[d].Probed?
    ensures Enabled(s, SettleProbe(d, fenced)) && d !in Apply(s, SettleProbe(d, fenced)).drivers
  {
  }
}
