/** What a reconciled success rests on, over whole runs of the broker. */
module Reconciliation {
  import opened Wrappers
  import opened Provider
  import opened Broker

  /** Step `k` is where driver `d` read request `id` to reconcile it, in this state, at this revision, expired or not. */
  ghost predicate ReadAt(s: Sys, acts: seq<Action>, k: nat, d: nat, id: nat, state: RequestState, revision: nat, expired: bool) {
    && k < |acts| && Runs(s, acts[..k])
    && acts[k].Read? && acts[k].d == d && acts[k].id == id && acts[k].purpose == ForReconcile
    && var u := After(s, acts[..k]);
       && id in u.rows && u.rows[id].state == state && u.rows[id].revision == revision
       && IsExpired(u.rows[id], acts[k].now) == expired
  }

  ghost predicate WasRead(s: Sys, acts: seq<Action>, d: nat, id: nat, state: RequestState, revision: nat, expired: bool) {
    exists k: nat :: ReadAt(s, acts, k, d, id, state, revision, expired)
  }

  ghost predicate NamesItsOwn(t: Sys, id: nat, found: Option<nat>) {
    id in t.rows && t.rows[id].request.CreatePullRequest? && found.Some? ==>
      Matches(t.provider, found.value, t.rows[id].request.identity)
  }

  /** Where a reconciling driver comes from: an in-flight read, and once it has probed, an unexpired one. */
  ghost predicate Tracked(s: Sys, acts: seq<Action>, t: Sys, d: nat) {
    d in t.drivers ==>
      match t.drivers[d]
      case Reading(id, purpose, state, revision, _, expired) =>
        purpose == ForReconcile ==> WasRead(s, acts, d, id, state, revision, expired)
      case Probed(id, state, revision, _, found) =>
        WasRead(s, acts, d, id, state, revision, false) && NamesItsOwn(t, id, found)
      case _ => true
  }

  lemma {:induction false} RunsInit(s: Sys, acts: seq<Action>)
    requires acts != [] && Runs(s, acts)
    ensures var init, a := acts[..|acts|-1], acts[|acts|-1];
            Runs(s, init) && Enabled(After(s, init), a) && After(s, acts) == Apply(After(s, init), a)
    decreases |acts|
  {
    hide Enabled, Apply;
    if |acts| == 1 {
      assert acts[1..] == [] && acts[..0] == [];
      assert Runs(Apply(s, acts[0]), []);
    } else {
      var rest := acts[1..];
      RunsInit(Apply(s, acts[0]), rest);
      var init := acts[..|acts|-1];
      assert init[0] == acts[0] && init[1..] == rest[..|rest|-1] && rest[|rest|-1] == acts[|acts|-1];
    }
  }

  lemma ReadStays(s: Sys, acts: seq<Action>, a: Action, d: nat, id: nat, state: RequestState, revision: nat, expired: bool)
    requires WasRead(s, acts, d, id, state, revision, expired)
    ensures WasRead(s, acts + [a], d, id, state, revision, expired)
  {
    var k: nat :| ReadAt(s, acts, k, d, id, state, revision, expired);
    assert (acts + [a])[..k] == acts[..k] && (acts + [a])[k] == acts[k];
    assert ReadAt(s, acts + [a], k, d, id, state, revision, expired);
  }

  /** What one step can do to a reconciling driver. */
  lemma DriverStep(t: Sys, a: Action, d: nat)
    requires Enabled(t, a) && d in Apply(t, a).drivers
    requires Apply(t, a).drivers[d].Probed? || (Apply(t, a).drivers[d].Reading? && Apply(t, a).drivers[d].purpose == ForReconcile)
    ensures var y := Apply(t, a).drivers[d];
            || (d in t.drivers && t.drivers[d] == y)
            || (y.Reading? && a.Read? && a.d == d && a.id == y.id && a.purpose == ForReconcile && y.id in t.rows && t.rows[y.id].state == y.state
                && t.rows[y.id].revision == y.revision && IsExpired(t.rows[y.id], a.now) == y.expired)
            || (y.Probed? && d in t.drivers && t.drivers[d].Reading? && t.drivers[d].purpose == ForReconcile && !t.drivers[d].expired
                && t.drivers[d].id == y.id && t.drivers[d].state == y.state && t.drivers[d].revision == y.revision
                && NamesItsOwn(Apply(t, a), y.id, y.found))
  {
    hide Perform, IsExpired, CasHolds;
    if a.Probe? && a.d == d {
      assert Apply(t, a).provider == t.provider && Apply(t, a).rows == t.rows;
    }
  }

  lemma OwnStays(t: Sys, u: Sys, id: nat, found: Option<nat>)
    requires NamesItsOwn(t, id, found) && Broker.Grows(t, u) && id in t.rows
    ensures NamesItsOwn(u, id, found)
  {
  }

  lemma {:induction false} Track(s: Sys, acts: seq<Action>, d: nat)
    requires Init(s) && Runs(s, acts)
    ensures Inv(After(s, acts)) && Tracked(s, acts, After(s, acts), d)
    decreases |acts|
  {
    hide Enabled, Apply, Inv, WasRead, NamesItsOwn;
    InitInv(s);
    if acts != [] {
      RunsInit(s, acts);
      var init, a := acts[..|acts|-1], acts[|acts|-1];
      var t := After(s, init);
      var u := Apply(t, a);
      Track(s, init, d);
      StepKeepsInv(t, a);
      assert acts == init + [a];
      if d in u.drivers && (u.drivers[d].Probed? || (u.drivers[d].Reading? && u.drivers[d].purpose == ForReconcile)) {
        DriverStep(t, a, d);
        TrackOne(s, init, a, t, d);
      }
    }
  }

  lemma TrackOne(s: Sys, init: seq<Action>, a: Action, t: Sys, d: nat)
    requires Inv(t) && Runs(s, init) && t == After(s, init) && Enabled(t, a) && Tracked(s, init, t, d) && d in Apply(t, a).drivers
    requires Apply(t, a).drivers[d].Probed? || (Apply(t, a).drivers[d].Reading? && Apply(t, a).drivers[d].purpose == ForReconcile)
    ensures Tracked(s, init + [a], Apply(t, a), d)
  {
    hide Enabled, Apply, Runs, After, NamesItsOwn, Inv;
    var y := Apply(t, a).drivers[d];
    DriverStep(t, a, d);
    StepKeepsInv(t, a);
    if d in t.drivers && t.drivers[d] == y {
      ReadStays(s, init, a, d, y.id, y.state, y.revision, if y.Probed? then false else y.expired);
      if y.Probed? {
        DriverFacts(t, d);
        OwnStays(t, Apply(t, a), y.id, y.found);
      }
    } else if y.Reading? {
      assert (init + [a])[..|init|] == init && (init + [a])[|init|] == a;
      assert ReadAt(s, init + [a], |init|, d, y.id, y.state, y.revision, y.expired);
    } else {
      ReadStays(s, init, a, d, y.id, y.state, y.revision, false);
    }
  }

  /** In every run, a request that reconciliation moves is moved to SUCCEEDED; the driver that does it read it in flight,
      unexpired, at the very revision it still has; its probe found the object, and for a create that is a pull request of
      the request's own identity. */
  lemma ReconciledSuccessIsEarned(s: Sys, acts: seq<Action>, d: nat, fenced: bool)
    requires Init(s) && Runs(s, acts) && Enabled(After(s, acts), SettleProbe(d, fenced))
    requires var t := After(s, acts); Apply(t, SettleProbe(d, fenced)).rows != t.rows
    ensures var t := After(s, acts);
            var x := t.drivers[d];
            var u := Apply(t, SettleProbe(d, fenced));
            && x.id in t.rows && u.rows == t.rows[x.id := u.rows[x.id]] && u.rows[x.id].state == Succeeded
            && t.rows[x.id].revision == x.revision && t.rows[x.id].state == x.state && x.state in {Executing, WaitingExternal}
            && WasRead(s, acts, d, x.id, x.state, x.revision, false)
            && x.found.Some? && NamesItsOwn(t, x.id, x.found)
  {
    hide Runs, After, Inv, WasRead, NamesItsOwn;
    Track(s, acts, d);
    DriverFacts(After(s, acts), d);
  }
}
