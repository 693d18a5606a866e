// argent_core/background_runtime.py: single-active supervisor ownership
module Supervisor {
  /*
   Single-active supervisor ownership (argent_core/background_runtime.py).

   One singleton row is shared by supervisors running on several hosts.  A supervisor reads the
   row, probes the recorded owner (boot id, pid, start ticks, machine id) at different instants,
   classifies its liveness and then tries a compare-and-swap on the row's revision.  Between any
   two of these steps other supervisors may act, processes may die or be spawned with recycled
   pids, and hosts may reboot.
   */
  import opened Wrappers

  type HostId = nat
  type MachineId = nat
  type BootId = nat
  type Pid = nat
  type Ticks = nat
  type ProcId = nat
  type InstanceId = nat

  const MAX_ACQUIRE_ATTEMPTS: nat := 5

  datatype Liveness = Live | Dead | Unknown
  datatype Verdict = Acquired | Takeover | LiveOwner | Ambiguous
  datatype Status = Active | Released

  /** The persisted singleton row. */
  datatype Row = Row(
    instanceId: InstanceId, bootId: Option<BootId>, hostId: Option<MachineId>, pid: Option<Pid>,
    startTicks: Option<Ticks>, status: Status, leaseExpiresAt: int, revision: nat)

  // ------------------------------------------------------------------ pure classification

  function ClassifyOwnerLiveness(
    ownerBoot: Option<BootId>, ownerPid: Option<Pid>, ownerTicks: Option<Ticks>,
    liveBoot: Option<BootId>, pidAlive: Option<bool>, liveTicks: Option<Ticks>,
    ownerHost: Option<MachineId>, liveHost: Option<MachineId>): Liveness
  {
    if ownerBoot.None? || ownerPid.None? || ownerTicks.None? then Unknown
    else if liveBoot.None? then Unknown
    else if ownerBoot != liveBoot then
      if ownerHost.None? || liveHost.None? then Unknown
      else if ownerHost != liveHost then Unknown
      else Dead
    else if pidAlive.None? then Unknown
    else if !pidAlive.value then Dead
    else if liveTicks.None? then Unknown
    else if liveTicks == ownerTicks then Live
    else Dead
  }

  function VerdictOf(l: Liveness): Verdict {
    match l
    case Live => LiveOwner
    case Dead => Takeover
    case Unknown => Ambiguous
  }

  // ------------------------------------------------------------------ the world

  datatype Host = Host(machineId: MachineId, boot: BootId)
  datatype Process = Process(host: HostId, boot: BootId, pid: Pid, ticks: Ticks, alive: bool)
  datatype World = World(hosts: map<HostId, Host>, procs: map<ProcId, Process>, usedBoots: set<BootId>)

  /** Some live process on host `h` has pid `p` right now. */
  predicate PidInUse(w: World, h: HostId, p: Pid) {
    exists q | q in w.procs :: RunsAs(w, q, h, p)
  }

  predicate RunsAs(w: World, q: ProcId, h: HostId, p: Pid) {
    q in w.procs && w.procs[q].alive && w.procs[q].host == h && w.procs[q].pid == p
  }

  /** Every process ran on a known host and under a boot that was used there; boot ids are unique. */
  ghost predicate BootsConsistent(w: World) {
    && (forall q :: q in w.procs ==> w.procs[q].host in w.hosts && w.procs[q].boot in w.usedBoots)
    && (forall h :: h in w.hosts ==> w.hosts[h].boot in w.usedBoots)
    && (forall h, k :: h in w.hosts && k in w.hosts && w.hosts[h].boot == w.hosts[k].boot ==> h == k)
    && (forall q, h :: q in w.procs && h in w.hosts && w.procs[q].boot == w.hosts[h].boot
                       ==> w.procs[q].host == h)
  }

  /** A live process runs under its host's current boot, and live processes of a host have distinct pids. */
  ghost predicate LiveConsistent(w: World) {
    && (forall q :: q in w.procs && w.procs[q].alive ==>
                      w.procs[q].host in w.hosts && w.procs[q].boot == w.hosts[w.procs[q].host].boot)
    && (forall q, r, h, p :: RunsAs(w, q, h, p) && RunsAs(w, r, h, p) ==> q == r)
  }

  /** Machine ids identify hosts. */
  ghost predicate MachinesDistinct(w: World) {
    forall h, k :: h in w.hosts && k in w.hosts && w.hosts[h].machineId == w.hosts[k].machineId ==> h == k
  }

  // ------------------------------------------------------------------ the system

  /** How far one `acquire` call has come; `attempts` counts lost compare-and-swaps. */
  datatype Stage =
    | Idle
    | Booted
    | Hosted
    | Armed(attempts: nat)
    | Looked(attempts: nat, owner: Row)
    | Probed(attempts: nat, owner: Row, pidAlive: Option<bool>)
    | Decided(attempts: nat, seen: Option<Row>, verdict: Verdict)

  datatype Instance = Instance(
    proc: ProcId, liveBoot: BootId, hostId: Option<MachineId>, ownTicks: Ticks, stage: Stage, active: bool)

  datatype Sys = Sys(world: World, row: Option<Row>, instances: map<InstanceId, Instance>)

  datatype Action =
    // environment
    | Spawn(newProc: ProcId, host: HostId, pid: Pid, ticks: Ticks)
    | Die(victim: ProcId)
    | Reboot(host: HostId, newBoot: BootId)
    | Start(newInstance: InstanceId, of: ProcId)
    // the supervisors
    | ReadBoot(i: InstanceId, boot: Option<BootId>)
    | ReadMachine(i: InstanceId, machine: Option<MachineId>)
    | ReadOwnTicks(i: InstanceId, ticksRead: Option<Ticks>)
    | ReadRow(i: InstanceId)
    | ProbePid(i: InstanceId, alive: Option<bool>)
    | ProbeTicks(i: InstanceId, ticksRead: Option<Ticks>)
    | Swap(i: InstanceId, expiresAt: int)
    | Heartbeat(i: InstanceId, expiresAt: int)
    | Release(i: InstanceId)

  predicate AliveInstance(s: Sys, i: InstanceId) {
    i in s.instances && s.instances[i].proc in s.world.procs && s.world.procs[s.instances[i].proc].alive
  }

  function ProcOf(s: Sys, i: InstanceId): Process
    requires i in s.instances && s.instances[i].proc in s.world.procs
  {
    s.world.procs[s.instances[i].proc]
  }

  /** A readable stat line of pid `p` on host `h` gives the ticks of the process running there. */
  ghost predicate TicksObservable(w: World, h: HostId, p: Pid, t: Ticks) {
    exists q | q in w.procs :: RunsAs(w, q, h, p) && w.procs[q].ticks == t
  }

  ghost predicate Enabled(s: Sys, a: Action) {
    match a
    case Spawn(q, h, p, t) => q !in s.world.procs && h in s.world.hosts && !PidInUse(s.world, h, p)
    case Die(q) => q in s.world.procs
    case Reboot(h, b) => h in s.world.hosts && b !in s.world.usedBoots
    case Start(j, q) => j !in s.instances && q in s.world.procs && s.world.procs[q].alive
    case ReadBoot(i, b) =>
      && AliveInstance(s, i) && s.instances[i].stage.Idle? && ProcOf(s, i).host in s.world.hosts
      && (b.Some? ==> b.value == s.world.hosts[ProcOf(s, i).host].boot)
    case ReadMachine(i, m) =>
      && AliveInstance(s, i) && s.instances[i].stage.Booted? && ProcOf(s, i).host in s.world.hosts
      && (m.Some? ==> m.value == s.world.hosts[ProcOf(s, i).host].machineId)
    case ReadOwnTicks(i, t) =>
      && AliveInstance(s, i) && s.instances[i].stage.Hosted?
      && (t.Some? ==> TicksObservable(s.world, ProcOf(s, i).host, ProcOf(s, i).pid, t.value))
    case ReadRow(i) => AliveInstance(s, i) && s.instances[i].stage.Armed?
    case ProbePid(i, r) =>
      && AliveInstance(s, i) && s.instances[i].stage.Looked?
      && var owner := s.instances[i].stage.owner;
      && (owner.pid.None? ==> r.None?)
      && (owner.pid.Some? && r.Some? ==> (r.value <==> PidInUse(s.world, ProcOf(s, i).host, owner.pid.value)))
    case ProbeTicks(i, t) =>
      && AliveInstance(s, i) && s.instances[i].stage.Probed?
      && var st := s.instances[i].stage;
      && (t.Some? ==>
            && st.pidAlive == Some(true) && st.owner.pid.Some?
            && TicksObservable(s.world, ProcOf(s, i).host, st.owner.pid.value, t.value))
    case Swap(i, _) => AliveInstance(s, i) && s.instances[i].stage.Decided?
    case Heartbeat(i, _) => AliveInstance(s, i)
    case Release(i) => AliveInstance(s, i)
  }

  /** `_build_row` with the revision the store assigns. */
  function BuildRow(s: Sys, i: InstanceId, expiresAt: int): Row
    requires i in s.instances && s.instances[i].proc in s.world.procs
  {
    var x := s.instances[i];
    Row(i, Some(x.liveBoot), x.hostId, Some(ProcOf(s, i).pid), Some(x.ownTicks), Active, expiresAt,
        (if s.row.Some? then s.row.value.revision else 0) + 1)
  }

  function RevisionOf(r: Option<Row>): Option<nat> {
    if r.Some? then Some(r.value.revision) else None
  }

  function KillAllOn(procs: map<ProcId, Process>, h: HostId): map<ProcId, Process> {
    map q | q in procs :: if procs[q].host == h then procs[q].(alive := false) else procs[q]
  }

  predicate IsEnvironment(a: Action) {
    a.Spawn? || a.Die? || a.Reboot? || a.Start?
  }

  function WorldAfter(w: World, a: Action): World
    requires a.Spawn? || a.Reboot? ==> a.host in w.hosts
    requires a.Die? ==> a.victim in w.procs
  {
    match a
    case Spawn(q, h, p, t) => w.(procs := w.procs[q := Process(h, w.hosts[h].boot, p, t, true)])
    case Die(q) => w.(procs := w.procs[q := w.procs[q].(alive := false)])
    case Reboot(h, b) =>
      World(w.hosts[h := w.hosts[h].(boot := b)], KillAllOn(w.procs, h), w.usedBoots + {b})
    case _ => w
  }

  /** The store's side of an action: only a winning compare-and-swap, a fenced heartbeat and a
      fenced release write the row. */
  function RowAfter(s: Sys, a: Action): Option<Row>
    requires Enabled(s, a)
  {
    match a
    case Swap(i, e) => if SwapWins(s, i) then Some(BuildRow(s, i, e)) else s.row
    case Heartbeat(i, e) =>
      if HoldsRow(s, i)
      then Some(s.row.value.(leaseExpiresAt := e, revision := s.row.value.revision + 1))
      else s.row
    case Release(i) =>
      if HoldsRow(s, i)
      then Some(s.row.value.(status := Released, revision := s.row.value.revision + 1))
      else s.row
    case _ => s.row
  }

  /** The acting instance's side of an action. */
  function InstanceAfter(s: Sys, a: Action): Instance
    requires Enabled(s, a) && !IsEnvironment(a)
  {
    var x := s.instances[a.i];
    match a
    case ReadBoot(_, b) => if b.None? then x else x.(liveBoot := b.value, stage := Booted)
    case ReadMachine(_, m) => x.(hostId := m, stage := Hosted)
    case ReadOwnTicks(_, t) =>
      if t.None? then x.(stage := Idle) else x.(ownTicks := t.value, stage := Armed(0))
    case ReadRow(_) =>
      if s.row.None? || s.row.value.status == Released
      then x.(stage := Decided(x.stage.attempts, s.row, Acquired))
      else x.(stage := Looked(x.stage.attempts, s.row.value))
    case ProbePid(_, r) => x.(stage := Probed(x.stage.attempts, x.stage.owner, r))
    case ProbeTicks(_, t) =>
      if ProbeVerdict(s, a.i, t) == Takeover
      then x.(stage := Decided(x.stage.attempts, Some(x.stage.owner), Takeover))
      else x.(stage := Idle)
    case Swap(_, _) =>
      if SwapWins(s, a.i) then x.(stage := Idle, active := true)
      else if x.stage.attempts + 1 < MAX_ACQUIRE_ATTEMPTS then x.(stage := Armed(x.stage.attempts + 1))
      else x.(stage := Idle)
    case Heartbeat(_, _) => x
    case Release(_) => x.(active := false)
  }

  /** A supervisor that has just started in process `q`. */
  function NewInstance(q: ProcId): Instance {
    Instance(q, 0, None, 0, Idle, false)
  }

  function Apply(s: Sys, a: Action): Sys
    requires Enabled(s, a)
  {
    Sys(WorldAfter(s.world, a), RowAfter(s, a),
        if a.Start? then s.instances[a.newInstance := NewInstance(a.of)]
        else if IsEnvironment(a) then s.instances else s.instances[a.i := InstanceAfter(s, a)])
  }

  /** The store's compare-and-swap: the row still has the revision the decision was based on. */
  predicate SwapWins(s: Sys, i: InstanceId)
    requires i in s.instances && s.instances[i].stage.Decided?
  {
    RevisionOf(s.row) == RevisionOf(s.instances[i].stage.seen)
  }

  /** The fence of `update_supervisor_instance`. */
  predicate HoldsRow(s: Sys, i: InstanceId) {
    s.row.Some? && s.row.value.instanceId == i
  }

  /** The verdict `_classify_existing` reaches once the start ticks have been probed. */
  function ProbeVerdict(s: Sys, i: InstanceId, ticks: Option<Ticks>): Verdict
    requires i in s.instances && s.instances[i].stage.Probed?
  {
    var x := s.instances[i];
    var owner := x.stage.owner;
    VerdictOf(ClassifyOwnerLiveness(owner.bootId, owner.pid, owner.startTicks, Some(x.liveBoot),
                                    x.stage.pidAlive, ticks, owner.hostId, x.hostId))
  }

  // ------------------------------------------------------------------ runs

  ghost predicate Runs(s: Sys, acts: seq<Action>)
    decreases |acts|
  {
    acts == [] || (Enabled(s, acts[0]) && Runs(Apply(s, acts[0]), acts[1..]))
  }

  ghost function After(s: Sys, acts: seq<Action>): Sys
    requires Runs(s, acts)
    decreases |acts|
  {
    if acts == [] then s else After(Apply(s, acts[0]), acts[1..])
  }

  /** The steps of one instance in a run. */
  function StepsOf(acts: seq<Action>, i: InstanceId): seq<Action> {
    if acts == [] then []
    else
      var last := acts[|acts|-1];
      StepsOf(acts[..|acts|-1], i) + (if !IsEnvironment(last) && last.i == i then [last] else [])
  }

  /** No row yet, nobody active, no acquisition in flight. */
  ghost predicate Init(s: Sys) {
    && BootsConsistent(s.world) && LiveConsistent(s.world) && MachinesDistinct(s.world)
    && s.row.None?
    && (forall i :: i in s.instances ==>
                      && s.instances[i].proc in s.world.procs
                      && s.instances[i].stage.Idle? && !s.instances[i].active)
  }

  // ------------------------------------------------------------------ invariant

  /** The row (or a snapshot of it) records the identity of the process of the instance that wrote it. */
  ghost predicate Truthful(s: Sys, r: Row) {
    && r.instanceId in s.instances && s.instances[r.instanceId].proc in s.world.procs
    && var p := ProcOf(s, r.instanceId);
    && p.host in s.world.hosts
    && r.bootId == Some(p.boot) && r.pid == Some(p.pid) && r.startTicks == Some(p.ticks)
    && (r.hostId.Some? ==> r.hostId.value == s.world.hosts[p.host].machineId)
  }

  /** `r` was read from the row: it is truthful, and if the revision still matches it is the row. */
  ghost predicate Snapshot(s: Sys, r: Row) {
    && Truthful(s, r)
    && s.row.Some? && r.revision <= s.row.value.revision
    && (r.revision == s.row.value.revision ==> r == s.row.value)
  }

  ghost predicate OwnerDead(s: Sys, r: Row) {
    r.instanceId in s.instances && s.instances[r.instanceId].proc in s.world.procs && !ProcOf(s, r.instanceId).alive
  }

  /** What one instance has learnt so far is true. */
  ghost predicate InstanceOk(s: Sys, i: InstanceId)
    requires i in s.instances
  {
    var x := s.instances[i];
    && x.proc in s.world.procs && ProcOf(s, i).host in s.world.hosts
    && (!x.stage.Idle? ==> x.liveBoot == ProcOf(s, i).boot)
    && (!x.stage.Idle? && !x.stage.Booted? ==>
          (x.hostId.Some? ==> x.hostId.value == s.world.hosts[ProcOf(s, i).host].machineId))
    && (x.stage.Armed? || x.stage.Looked? || x.stage.Probed? || x.stage.Decided? ==>
          x.ownTicks == ProcOf(s, i).ticks)
    && (x.stage.Armed? || x.stage.Looked? || x.stage.Probed? || x.stage.Decided? ==>
          x.stage.attempts < MAX_ACQUIRE_ATTEMPTS)
    && match x.stage
       case Looked(_, owner) => Snapshot(s, owner)
       case Probed(_, owner, alive) =>
         Snapshot(s, owner) && (alive == Some(false) && owner.bootId == Some(x.liveBoot) ==> OwnerDead(s, owner))
       case Decided(_, seen, v) =>
         && (seen.Some? ==> Snapshot(s, seen.value))
         && ((v == Acquired && (seen.None? || seen.value.status == Released))
             || (v == Takeover && seen.Some? && OwnerDead(s, seen.value)))
       case _ => true
  }

  ghost predicate Inv(s: Sys) {
    && BootsConsistent(s.world) && LiveConsistent(s.world) && MachinesDistinct(s.world)
    && (s.row.Some? ==> Truthful(s, s.row.value))
    && (forall i :: i in s.instances ==> InstanceOk(s, i))
    && (forall i :: AliveInstance(s, i) && s.instances[i].active ==> OwnsRow(s, i))
  }

  ghost predicate OwnsRow(s: Sys, i: InstanceId) {
    s.row.Some? && s.row.value.instanceId == i && s.row.value.status == Active
  }

  // ------------------------------------------------------------------ the key lemma

  /** Although the boot id, the machine id, the pid and the start ticks were read at different
      instants, a `dead` verdict means that the recorded owner really is gone. */
  lemma DeadVerdictIsSound(s: Sys, i: InstanceId, ticks: Option<Ticks>)
    requires Inv(s) && Enabled(s, ProbeTicks(i, ticks))
    requires ProbeVerdict(s, i, ticks) == Takeover
    ensures OwnerDead(s, s.instances[i].stage.owner)
  {
    var x := s.instances[i];
    var owner := x.stage.owner;
    assert InstanceOk(s, i);
    var me, him := ProcOf(s, i), ProcOf(s, owner.instanceId);
    if owner.bootId != Some(x.liveBoot) {
      // Same machine, another boot: a live owner would run under the prober's boot.
      assert me.host == him.host;
    } else if x.stage.pidAlive == Some(true) {
      var q :| RunsAs(s.world, q, me.host, owner.pid.value) && s.world.procs[q].ticks == ticks.value;
      if him.alive {
        assert RunsAs(s.world, s.instances[owner.instanceId].proc, me.host, him.pid);
      }
    }
  }

  // ------------------------------------------------------------------ preservation

  /** Identities are permanent: an action changes no recorded field of an existing process. */
  lemma IdentitiesArePermanent(s: Sys, a: Action)
    requires Enabled(s, a)
    ensures var s' := Apply(s, a);
            && s.instances.Keys <= s'.instances.Keys
            && (forall i :: i in s.instances ==> s'.instances[i].proc == s.instances[i].proc)
            && (forall q :: q in s.world.procs ==>
                  && q in s'.world.procs
                  && s'.world.procs[q].(alive := s.world.procs[q].alive) == s.world.procs[q]
                  && (s'.world.procs[q].alive ==> s.world.procs[q].alive))
            && (forall h :: h in s.world.hosts ==>
                  h in s'.world.hosts && s'.world.hosts[h].machineId == s.world.hosts[h].machineId)
  {
  }

  /** Whatever runs after a step ran before it, except the process just spawned, whose pid was free. */
  lemma RanBefore(s: Sys, a: Action, q: ProcId, h: HostId, p: Pid)
    requires Enabled(s, a) && RunsAs(Apply(s, a).world, q, h, p)
    ensures if a.Spawn? && q == a.newProc then h == a.host && p == a.pid && forall r :: !RunsAs(s.world, r, h, p)
            else RunsAs(s.world, q, h, p)
  {
  }

  lemma WorldPreserved(s: Sys, a: Action)
    requires Inv(s) && Enabled(s, a)
    ensures var w := Apply(s, a).world;
            BootsConsistent(w) && LiveConsistent(w) && MachinesDistinct(w)
  {
    var w, w' := s.world, Apply(s, a).world;
    forall q, r, h, p | RunsAs(w', q, h, p) && RunsAs(w', r, h, p)
      ensures q == r
    {
      RanBefore(s, a, q, h, p);
      RanBefore(s, a, r, h, p);
    }
  }

  /** The revision only grows, and a row that keeps its revision is unchanged. */
  lemma RowMonotone(s: Sys, a: Action)
    requires Enabled(s, a)
    ensures var s' := Apply(s, a);
            s.row.Some? ==> s'.row.Some? && s.row.value.revision <= s'.row.value.revision
                            && (s.row.value.revision == s'.row.value.revision ==> s'.row == s.row)
  {
  }

  lemma TruthfulPreserved(s: Sys, a: Action, r: Row)
    requires Inv(s) && Enabled(s, a) && Truthful(s, r)
    ensures Truthful(Apply(s, a), r)
  {
    IdentitiesArePermanent(s, a);
  }

  lemma SnapshotPreserved(s: Sys, a: Action, r: Row)
    requires Inv(s) && Enabled(s, a) && Snapshot(s, r)
    ensures Snapshot(Apply(s, a), r)
  {
    TruthfulPreserved(s, a, r);
    RowMonotone(s, a);
  }

  /** What an instance knows survives the steps of everybody else. */
  lemma BystanderKeepsKnowledge(s: Sys, a: Action, j: InstanceId)
    requires Inv(s) && Enabled(s, a) && j in s.instances
    requires Apply(s, a).instances[j] == s.instances[j]
    ensures InstanceOk(Apply(s, a), j)
  {
    var s' := Apply(s, a);
    IdentitiesArePermanent(s, a);
    assert InstanceOk(s, j);
    match s.instances[j].stage {
      case Looked(_, owner) => SnapshotPreserved(s, a, owner);
      case Probed(_, owner, _) => SnapshotPreserved(s, a, owner);
      case Decided(_, seen, _) => if seen.Some? { SnapshotPreserved(s, a, seen.value); }
      case _ =>
    }
  }

  lemma OwnTicksAreOwn(s: Sys, i: InstanceId, t: Ticks)
    requires Inv(s) && AliveInstance(s, i) && TicksObservable(s.world, ProcOf(s, i).host, ProcOf(s, i).pid, t)
    ensures t == ProcOf(s, i).ticks
  {
    var me := ProcOf(s, i);
    var q :| RunsAs(s.world, q, me.host, me.pid) && s.world.procs[q].ticks == t;
    assert RunsAs(s.world, s.instances[i].proc, me.host, me.pid);
  }

  lemma ActorGainsKnowledge(s: Sys, a: Action)
    requires Inv(s) && Enabled(s, a) && !IsEnvironment(a)
    ensures InstanceOk(Apply(s, a), a.i)
  {
    var i, s' := a.i, Apply(s, a);
    IdentitiesArePermanent(s, a);
    assert InstanceOk(s, i);
    match a {
      case ReadOwnTicks(_, t) => if t.Some? { OwnTicksAreOwn(s, i, t.value); }
      case ProbePid(_, r) =>
        var owner := s.instances[i].stage.owner;
        SnapshotPreserved(s, a, owner);
        var him := ProcOf(s, owner.instanceId);
        if r == Some(false) && owner.bootId == Some(s.instances[i].liveBoot) && him.alive {
          assert RunsAs(s.world, s.instances[owner.instanceId].proc, ProcOf(s, i).host, him.pid);
        }
      case ProbeTicks(_, t) =>
        if ProbeVerdict(s, i, t) == Takeover {
          DeadVerdictIsSound(s, i, t);
          SnapshotPreserved(s, a, s.instances[i].stage.owner);
        }
      case Release(_) => ReleaseKeepsKnowledge(s, a);
      case Heartbeat(_, _) => BystanderKeepsKnowledge(s, a, i);
      case _ =>
    }
  }

  lemma ReleaseKeepsKnowledge(s: Sys, a: Action)
    requires Inv(s) && Enabled(s, a) && a.Release?
    ensures InstanceOk(Apply(s, a), a.i)
  {
    IdentitiesArePermanent(s, a);
    assert InstanceOk(s, a.i);
    match s.instances[a.i].stage {
      case Looked(_, owner) => SnapshotPreserved(s, a, owner);
      case Probed(_, owner, _) => SnapshotPreserved(s, a, owner);
      case Decided(_, seen, _) => if seen.Some? { SnapshotPreserved(s, a, seen.value); }
      case _ =>
    }
  }

  lemma KnowledgePreserved(s: Sys, a: Action, j: InstanceId)
    requires Inv(s) && Enabled(s, a) && j in Apply(s, a).instances
    ensures InstanceOk(Apply(s, a), j)
  {
    if !IsEnvironment(a) && j == a.i {
      ActorGainsKnowledge(s, a);
    } else if a.Start? && j == a.newInstance {
      assert InstanceOk(Apply(s, a), j);
    } else {
      BystanderKeepsKnowledge(s, a, j);
    }
  }

  lemma RowStaysTruthful(s: Sys, a: Action)
    requires Inv(s) && Enabled(s, a) && Apply(s, a).row.Some?
    ensures Truthful(Apply(s, a), Apply(s, a).row.value)
  {
    IdentitiesArePermanent(s, a);
    if a.Swap? {
      assert InstanceOk(s, a.i);
    }
  }

  /** A winning compare-and-swap displaces no live active owner: it replaced nothing, a released
      row, or the row of a process proved dead. */
  lemma SwapDisplacesNobody(s: Sys, i: InstanceId, e: int, j: InstanceId)
    requires Inv(s) && Enabled(s, Swap(i, e))
    requires SwapWins(s, i)
    requires AliveInstance(s, j)
    ensures !s.instances[j].active
  {
    assert InstanceOk(s, i);
  }

  lemma RunsInAProcess(s: Sys, j: InstanceId)
    requires Inv(s) && j in s.instances
    ensures s.instances[j].proc in s.world.procs
  {
    assert InstanceOk(s, j);
  }

  lemma OwnershipPreserved(s: Sys, a: Action, j: InstanceId)
    requires Inv(s) && Enabled(s, a)
    requires AliveInstance(Apply(s, a), j) && Apply(s, a).instances[j].active
    ensures OwnsRow(Apply(s, a), j)
  {
    hide BootsConsistent, LiveConsistent, MachinesDistinct, InstanceOk, Truthful;
    IdentitiesArePermanent(s, a);
    if j in s.instances && s.instances[j].active {
      RunsInAProcess(s, j);
      assert OwnsRow(s, j);
      if a.Swap? && SwapWins(s, a.i) {
        SwapDisplacesNobody(s, a.i, a.expiresAt, j);
      }
    }
  }

  lemma InvPreserved(s: Sys, a: Action)
    requires Inv(s) && Enabled(s, a)
    ensures Inv(Apply(s, a))
  {
    var s' := Apply(s, a);
    WorldPreserved(s, a);
    if s'.row.Some? { RowStaysTruthful(s, a); }
    forall j | j in s'.instances ensures InstanceOk(s', j) { KnowledgePreserved(s, a, j); }
    forall j | AliveInstance(s', j) && s'.instances[j].active ensures OwnsRow(s', j) { OwnershipPreserved(s, a, j); }
  }

  lemma {:induction false} InvAlongRun(s: Sys, acts: seq<Action>)
    requires Inv(s) && Runs(s, acts)
    ensures Inv(After(s, acts))
    decreases |acts|
  {
    if acts != [] {
      InvPreserved(s, acts[0]);
      InvAlongRun(Apply(s, acts[0]), acts[1..]);
    }
  }

  lemma InitEstablishesInv(s: Sys)
    requires Init(s)
    ensures Inv(s)
  {
    forall i | i in s.instances ensures InstanceOk(s, i) { }
  }

  // ------------------------------------------------------------------ main theorems

  /** No split brain: over every interleaving of supervisor starts, acquisitions, heartbeats, releases, deaths,
      pid reuse and reboots, two supervisors that are alive, have acquired and have not released
      are the same one, and it owns the row. */
  lemma SingleActiveSupervisor(s: Sys, acts: seq<Action>, i: InstanceId, j: InstanceId)
    requires Init(s) && Runs(s, acts)
    requires var e := After(s, acts); AliveInstance(e, i) && e.instances[i].active
    requires var e := After(s, acts); AliveInstance(e, j) && e.instances[j].active
    ensures i == j && OwnsRow(After(s, acts), i)
  {
    InitEstablishesInv(s);
    InvAlongRun(s, acts);
    var e := After(s, acts);
    assert OwnsRow(e, i) && OwnsRow(e, j);
  }

  /** Until it releases, a live holder keeps the row through any run, and its next heartbeat commits. */
  lemma {:induction false} HolderKeepsRow(s: Sys, acts: seq<Action>, i: InstanceId, e: int)
    requires Inv(s) && Runs(s, acts) && i in s.instances && s.instances[i].active
    requires Release(i) !in acts && AliveInstance(After(s, acts), i)
    ensures var t := After(s, acts);
            && t.instances[i].active && OwnsRow(t, i)
            && var r := Apply(t, Heartbeat(i, e)).row; OwnsRow(t.(row := r), i) && r.value.leaseExpiresAt == e
    decreases |acts|
  {
    hide Inv;
    if acts != [] {
      InvPreserved(s, acts[0]);
      StaysActive(s, acts[0], i);
      assert Release(i) !in acts[1..];
      HolderKeepsRow(Apply(s, acts[0]), acts[1..], i, e);
    } else {
      LiveHolderOwns(s, i);
    }
  }

  lemma StaysActive(s: Sys, a: Action, i: InstanceId)
    requires Enabled(s, a) && i in s.instances && s.instances[i].active && a != Release(i)
    ensures i in Apply(s, a).instances && Apply(s, a).instances[i].active
  {
  }

  lemma LiveHolderOwns(s: Sys, i: InstanceId)
    requires Inv(s) && AliveInstance(s, i) && s.instances[i].active
    ensures OwnsRow(s, i)
  {
  }

  /** The row of an instance that lost it while active is gone for good: the instance is dead, and takes no step
      in any continuation. */
  lemma DisplacedIsSilent(s: Sys, acts: seq<Action>, more: seq<Action>, i: InstanceId)
    requires Init(s) && Runs(s, acts) && Runs(After(s, acts), more)
    requires var t := After(s, acts); i in t.instances && t.instances[i].active && !OwnsRow(t, i)
    ensures !AliveInstance(After(After(s, acts), more), i) && StepsOf(more, i) == []
  {
    InitEstablishesInv(s);
    InvAlongRun(s, acts);
    DeadIsSilent(After(s, acts), more, i);
  }

  lemma {:induction false} DeadIsSilent(s: Sys, acts: seq<Action>, i: InstanceId)
    requires Inv(s) && Runs(s, acts) && i in s.instances && !AliveInstance(s, i)
    ensures !AliveInstance(After(s, acts), i) && StepsOf(acts, i) == []
    decreases |acts|
  {
    if acts != [] {
      InvPreserved(s, acts[0]);
      assert InstanceOk(s, i);
      IdentitiesArePermanent(s, acts[0]);
      DeadIsSilent(Apply(s, acts[0]), acts[1..], i);
      StepsOfTail(acts, i);
    }
  }

  lemma {:induction false} StepsOfTail(acts: seq<Action>, i: InstanceId)
    requires acts != []
    ensures StepsOf(acts, i) == (if !IsEnvironment(acts[0]) && acts[0].i == i then [acts[0]] else []) + StepsOf(acts[1..], i)
  {
    var n := |acts| - 1;
    if n > 0 {
      StepsOfTail(acts[..n], i);
      assert acts[..n][1..] == acts[1..][..n - 1] && acts[..n][0] == acts[0];
    } else {
      assert acts[..0] == [] && acts[1..] == [];
    }
  }

  /** A row that names another instance is fenced against `i`: until `i` wins a compare-and-swap of its own, no
      heartbeat or release of it changes the row, wherever a run has led. */
  lemma {:induction false} FencedOutUntilItSwaps(s: Sys, acts: seq<Action>, i: InstanceId, e: int)
    requires Runs(s, acts) && !HoldsRow(s, i)
    requires forall k, x :: 0 <= k < |acts| ==> acts[k] != Swap(i, x)
    ensures var t := After(s, acts);
            && !HoldsRow(t, i)
            && (AliveInstance(t, i) ==> Apply(t, Heartbeat(i, e)).row == t.row == Apply(t, Release(i)).row)
    decreases |acts|
  {
    if acts != [] {
      assert forall k, x :: 0 <= k < |acts[1..]| ==> acts[1..][k] == acts[k + 1] != Swap(i, x);
      FencedOutUntilItSwaps(Apply(s, acts[0]), acts[1..], i, e);
    }
  }

  /** Start ticks tell apart the processes that shared a pid under one boot. */
  ghost predicate IdentitiesUnique(w: World) {
    forall q, r | q in w.procs && r in w.procs ::
      (w.procs[q].boot, w.procs[q].pid, w.procs[q].ticks) == (w.procs[r].boot, w.procs[r].pid, w.procs[r].ticks) ==>
        q == r
  }

  /** A `live` verdict is right too, provided start ticks are not repeated for a recycled pid. */
  lemma LiveVerdictIsSound(s: Sys, i: InstanceId, ticks: Option<Ticks>)
    requires Inv(s) && IdentitiesUnique(s.world) && Enabled(s, ProbeTicks(i, ticks))
    requires ProbeVerdict(s, i, ticks) == LiveOwner
    ensures !OwnerDead(s, s.instances[i].stage.owner)
  {
    var owner := s.instances[i].stage.owner;
    assert InstanceOk(s, i);
    var me, him := ProcOf(s, i), ProcOf(s, owner.instanceId);
    var q :| RunsAs(s.world, q, me.host, owner.pid.value) && s.world.procs[q].ticks == ticks.value;
    assert s.world.procs[q].boot == me.boot;
  }

  // ------------------------------------------------------------------ composing runs

  lemma {:induction false} RunsConcat(s: Sys, xs: seq<Action>, ys: seq<Action>)
    requires Runs(s, xs) && Runs(After(s, xs), ys)
    ensures Runs(s, xs + ys) && After(s, xs + ys) == After(After(s, xs), ys)
    decreases |xs|
  {
    if xs == [] {
      assert xs + ys == ys;
    } else {
      assert (xs + ys)[1..] == xs[1..] + ys;
      RunsConcat(Apply(s, xs[0]), xs[1..], ys);
    }
  }

  lemma RunsSnoc(s: Sys, xs: seq<Action>, a: Action)
    requires Runs(s, xs) && Enabled(After(s, xs), a)
    ensures Runs(s, xs + [a]) && After(s, xs + [a]) == Apply(After(s, xs), a)
  {
    assert [a][1..] == [];
    RunsConcat(s, xs, [a]);
  }

  // ------------------------------------------------------------------ takeovers by supervisors started later

  /** What lets an idle instance run: it is alive, and its host is known. */
  predicate Ready(s: Sys, i: InstanceId) {
    AliveInstance(s, i) && s.instances[i].stage.Idle? && ProcOf(s, i).host in s.world.hosts
  }

  /** The three identity reads, all answered. */
  lemma Arms(s: Sys, i: InstanceId) returns (t: Sys, acts: seq<Action>)
    requires Ready(s, i)
    ensures Runs(s, acts) && t == After(s, acts) && |acts| == 3
    ensures var p := ProcOf(s, i);
            var h := s.world.hosts[p.host];
            t == s.(instances := s.instances[i := Instance(s.instances[i].proc, h.boot, Some(h.machineId), p.ticks, Armed(0), s.instances[i].active)])
  {
    var p := ProcOf(s, i);
    var h := s.world.hosts[p.host];
    assert RunsAs(s.world, s.instances[i].proc, p.host, p.pid);
    var a, b, c := ReadBoot(i, Some(h.boot)), ReadMachine(i, Some(h.machineId)), ReadOwnTicks(i, Some(p.ticks));
    var s1 := Apply(s, a);
    var s2 := Apply(s1, b);
    assert Enabled(s1, b) && Enabled(s2, c);
    t := Apply(s2, c);
    assert t.instances == s.instances[i := t.instances[i]];
    acts := [a, b, c];
    RunOfThree(s, a, b, c);
  }

  lemma RunOfThree(s: Sys, a: Action, b: Action, c: Action)
    requires Enabled(s, a) && Enabled(Apply(s, a), b) && Enabled(Apply(Apply(s, a), b), c)
    ensures Runs(s, [a, b, c]) && After(s, [a, b, c]) == Apply(Apply(Apply(s, a), b), c)
  {
    hide Enabled, Apply;
    var s1 := Apply(s, a);
    var s2 := Apply(s1, b);
    var s3 := Apply(s2, c);
    assert Runs(s3, []) && After(s3, []) == s3;
    assert [c][1..] == [] && Runs(s2, [c]) && After(s2, [c]) == s3;
    assert [b, c][1..] == [c] && Runs(s1, [b, c]) && After(s1, [b, c]) == s3;
    assert [a, b, c][1..] == [b, c];
  }

  /** The row `i` writes when it wins. */
  function RowOf(s: Sys, i: InstanceId, e: int): Row
    requires Ready(s, i)
  {
    var p := ProcOf(s, i);
    var h := s.world.hosts[p.host];
    Row(i, Some(h.boot), Some(h.machineId), Some(p.pid), Some(p.ticks), Active, e, (if s.row.Some? then s.row.value.revision else 0) + 1)
  }

  /** `t` is `s` after `i` acquired the row, nothing else having changed. */
  ghost predicate JustAcquired(s: Sys, t: Sys, i: InstanceId, e: int)
    requires Ready(s, i)
  {
    && t.world == s.world && t.row == Some(RowOf(s, i, e))
    && i in t.instances && t.instances == s.instances[i := t.instances[i]]
    && t.instances[i].proc == s.instances[i].proc && t.instances[i].stage == Idle && t.instances[i].active
  }

  /** A free row is acquired by any ready instance that is left alone. */
  lemma AcquiresFree(s: Sys, i: InstanceId, e: int) returns (t: Sys, acts: seq<Action>)
    requires Ready(s, i) && (s.row.None? || s.row.value.status == Released)
    ensures Runs(s, acts) && t == After(s, acts) && JustAcquired(s, t, i, e)
  {
    hide Runs, After;
    t, acts := Arms(s, i);
    var u := Apply(t, ReadRow(i));
    assert Enabled(t, ReadRow(i)) && Enabled(u, Swap(i, e));
    RunsSnoc(s, acts, ReadRow(i));
    RunsSnoc(s, acts + [ReadRow(i)], Swap(i, e));
    acts := acts + [ReadRow(i)] + [Swap(i, e)];
    t := Apply(u, Swap(i, e));
  }

  /** A row left behind by an earlier boot of the same machine is taken over by any ready instance left alone. */
  lemma TakesOverEarlierBoot(s: Sys, i: InstanceId, e: int) returns (t: Sys, acts: seq<Action>)
    requires Ready(s, i) && s.row.Some? && s.row.value.status == Active
    requires s.row.value.bootId.Some? && s.row.value.pid.Some? && s.row.value.startTicks.Some?
    requires var h := s.world.hosts[ProcOf(s, i).host]; s.row.value.hostId == Some(h.machineId) && s.row.value.bootId != Some(h.boot)
    ensures Runs(s, acts) && t == After(s, acts) && JustAcquired(s, t, i, e)
    ensures ProbeTicks(i, None) in acts
  {
    hide Runs, After, PidInUse;
    t, acts := Arms(s, i);
    var r, p, k, w := ReadRow(i), ProbePid(i, None), ProbeTicks(i, None), Swap(i, e);
    var t1 := Apply(t, r);
    assert t1.instances[i].stage == Looked(0, s.row.value) && Enabled(t1, p);
    var t2 := Apply(t1, p);
    assert t2.instances[i].stage == Probed(0, s.row.value, None) && Enabled(t2, k);
    var t3 := Apply(t2, k);
    assert t3.instances[i].stage == Decided(0, Some(s.row.value), Takeover) && Enabled(t3, w);
    RunsSnoc(s, acts, r);
    RunsSnoc(s, acts + [r], p);
    RunsSnoc(s, acts + [r] + [p], k);
    RunsSnoc(s, acts + [r] + [p] + [k], w);
    acts := acts + [r] + [p] + [k] + [w];
    t := Apply(t3, w);
  }

  /** The recorded owner is provably gone as seen from `i`: its row is of another boot of the same machine, or of this
      boot and no live process here has its pid and start ticks. */
  ghost predicate ProvablyGone(s: Sys, i: InstanceId)
    requires Ready(s, i) && s.row.Some?
  {
    var me := ProcOf(s, i);
    var h := s.world.hosts[me.host];
    var r := s.row.value;
    if r.bootId != Some(h.boot) then r.hostId == Some(h.machineId)
    else forall q | q in s.world.procs && s.world.procs[q].alive && s.world.procs[q].host == me.host && r.pid == Some(s.world.procs[q].pid) ::
           r.startTicks != Some(s.world.procs[q].ticks)
  }

  /** What the probes find when both are answered at one instant. */
  lemma ProbesOf(s: Sys, i: InstanceId) returns (alive: bool, ticks: Option<Ticks>)
    requires Inv(s) && Ready(s, i) && s.row.Some?
    ensures var me := ProcOf(s, i);
            var r := s.row.value;
            && r.bootId.Some? && r.pid.Some? && r.startTicks.Some?
            && alive == PidInUse(s.world, me.host, r.pid.value) && (ticks.Some? <==> alive)
            && (ticks.Some? ==> TicksObservable(s.world, me.host, r.pid.value, ticks.value))
            && (r.bootId == Some(s.world.hosts[me.host].boot) ==> (ProvablyGone(s, i) <==> !alive || ticks != r.startTicks))
  {
    var me, r := ProcOf(s, i), s.row.value;
    alive, ticks := PidInUse(s.world, me.host, r.pid.value), None;
    if alive {
      var q :| q in s.world.procs && RunsAs(s.world, q, me.host, r.pid.value);
      ticks := Some(s.world.procs[q].ticks);
      forall o | o in s.world.procs && RunsAs(s.world, o, me.host, r.pid.value) ensures o == q {
      }
      assert RunsAs(s.world, q, me.host, r.pid.value);
    }
  }

  /** One acquisition that is left alone and whose probes are all answered takes the row over exactly when the recorded
      owner is provably gone; otherwise it changes nothing but its own readings. */
  lemma AcquireLeftAlone(s: Sys, i: InstanceId, e: int) returns (t: Sys, acts: seq<Action>)
    requires Inv(s) && Ready(s, i) && s.row.Some? && s.row.value.status == Active
    ensures Runs(s, acts) && t == After(s, acts)
    ensures s.row.value.pid.Some? && |acts| >= 6
    ensures acts[4] == ProbePid(i, Some(PidInUse(s.world, ProcOf(s, i).host, s.row.value.pid.value)))
    ensures acts[5].ProbeTicks? && acts[5].i == i && acts[5].ticksRead.Some? == PidInUse(s.world, ProcOf(s, i).host, s.row.value.pid.value)
    ensures if ProvablyGone(s, i) then JustAcquired(s, t, i, e)
            else t.world == s.world && t.row == s.row && i in t.instances && t.instances == s.instances[i := t.instances[i]]
                 && t.instances[i].stage == Idle && t.instances[i].active == s.instances[i].active
  {
    hide Runs, After, PidInUse, Inv, TicksObservable, ProvablyGone, Apply, Enabled;
    var alive, ticks := ProbesOf(s, i);
    var first;
    t, first := Arms(s, i);
    var r, p, k, w := ReadRow(i), ProbePid(i, Some(alive)), ProbeTicks(i, ticks), Swap(i, e);
    ProbeSteps(t, i, alive, ticks);
    var t2 := Apply(Apply(t, r), p);
    RunsSnoc(s, first, r);
    RunsSnoc(s, first + [r], p);
    RunsSnoc(s, first + [r] + [p], k);
    acts := first + [r] + [p] + [k];
    VerdictOfProbes(s, t2, i, alive, ticks);
    t := Apply(t2, k);
    if ProvablyGone(s, i) {
      LastStep(s, t, i, e);
      RunsSnoc(s, acts, w);
      acts := acts + [w];
      t := Apply(t, w);
    }
  }

  lemma ProbeSteps(t: Sys, i: InstanceId, alive: bool, ticks: Option<Ticks>)
    requires AliveInstance(t, i) && t.instances[i].stage == Armed(0) && t.row.Some? && t.row.value.status == Active && t.row.value.pid.Some?
    requires var h, pid := ProcOf(t, i).host, t.row.value.pid.value;
             alive == PidInUse(t.world, h, pid) && (ticks.Some? ==> alive && TicksObservable(t.world, h, pid, ticks.value))
    ensures var r, p, k := ReadRow(i), ProbePid(i, Some(alive)), ProbeTicks(i, ticks);
            && Enabled(t, r) && Enabled(Apply(t, r), p) && Enabled(Apply(Apply(t, r), p), k)
            && var t2 := Apply(Apply(t, r), p);
               var t3 := Apply(t2, k);
               && i in t2.instances && t2.instances[i] == t.instances[i].(stage := Probed(0, t.row.value, Some(alive)))
               && t3 == t.(instances := t.instances[i := t.instances[i].(stage :=
                             if ProbeVerdict(t2, i, ticks) == Takeover then Decided(0, t.row, Takeover) else Idle)])
  {
    hide PidInUse, TicksObservable, ClassifyOwnerLiveness;
    var t1 := Apply(t, ReadRow(i));
    assert t1.instances[i].stage == Looked(0, t.row.value);
    var t2 := Apply(t1, ProbePid(i, Some(alive)));
    var t3 := Apply(t2, ProbeTicks(i, ticks));
    assert t3.instances == t.instances[i := t3.instances[i]];
  }

  lemma LastStep(s: Sys, t: Sys, i: InstanceId, e: int)
    requires Ready(s, i) && s.row.Some?
    requires var p := ProcOf(s, i);
             var h := s.world.hosts[p.host];
             t == s.(instances := s.instances[i := Instance(s.instances[i].proc, h.boot, Some(h.machineId), p.ticks, Decided(0, s.row, Takeover), s.instances[i].active)])
    ensures Enabled(t, Swap(i, e)) && JustAcquired(s, Apply(t, Swap(i, e)), i, e)
  {
  }

  /** The verdict on answered probes. */
  lemma VerdictOfProbes(s: Sys, t: Sys, i: InstanceId, alive: bool, ticks: Option<Ticks>)
    requires Ready(s, i) && s.row.Some? && i in t.instances
    requires var me := ProcOf(s, i);
             var h := s.world.hosts[me.host];
             var r := s.row.value;
             && t.instances[i].stage == Probed(0, r, Some(alive)) && t.instances[i].liveBoot == h.boot && t.instances[i].hostId == Some(h.machineId)
             && r.bootId.Some? && r.pid.Some? && r.startTicks.Some? && (ticks.Some? <==> alive)
             && (r.bootId == Some(h.boot) ==> (ProvablyGone(s, i) <==> !alive || ticks != r.startTicks))
    ensures ProbeVerdict(t, i, ticks) == Takeover <==> ProvablyGone(s, i)
    ensures var h := s.world.hosts[ProcOf(s, i).host];
            ProbeVerdict(t, i, ticks) == LiveOwner <==> s.row.value.bootId == Some(h.boot) && alive && ticks == s.row.value.startTicks
  {
  }

  /** When start ticks are not repeated, being provably gone is being gone, wherever that can be known: on this boot, or
      on another boot of a machine whose id was recorded. */
  lemma GoneIff(s: Sys, i: InstanceId)
    requires Inv(s) && Ready(s, i) && s.row.Some? && IdentitiesUnique(s.world)
    ensures var h := s.world.hosts[ProcOf(s, i).host];
            var r := s.row.value;
            ProvablyGone(s, i) <==> OwnerDead(s, r) && (r.bootId == Some(h.boot) || r.hostId == Some(h.machineId))
  {
    var me, r := ProcOf(s, i), s.row.value;
    var him := ProcOf(s, r.instanceId);
    var o := s.instances[r.instanceId].proc;
    if r.bootId == Some(s.world.hosts[me.host].boot) {
      assert him.host == me.host;
      if him.alive {
        assert !ProvablyGone(s, i) by { assert s.world.procs[o].alive && r.pid == Some(s.world.procs[o].pid); }
      } else {
        forall q | q in s.world.procs && s.world.procs[q].alive && s.world.procs[q].host == me.host && r.pid == Some(s.world.procs[q].pid)
          ensures r.startTicks != Some(s.world.procs[q].ticks)
        {
          assert s.world.procs[q].boot == me.boot;
          assert q != o;
        }
      }
    } else if r.hostId == Some(s.world.hosts[me.host].machineId) {
      assert him.host == me.host;
    }
  }

  /** So an owner that crashed without a reboot is replaced by any instance started on its host and left alone. */
  lemma CrashedOwnerIsReplaced(s: Sys, i: InstanceId, e: int) returns (t: Sys, acts: seq<Action>)
    requires Inv(s) && Ready(s, i) && IdentitiesUnique(s.world) && s.row.Some? && s.row.value.status == Active
    requires OwnerDead(s, s.row.value) && s.row.value.bootId == Some(s.world.hosts[ProcOf(s, i).host].boot)
    ensures Runs(s, acts) && t == After(s, acts) && JustAcquired(s, t, i, e)
  {
    hide Inv, Runs, After, ProvablyGone, JustAcquired;
    GoneIff(s, i);
    t, acts := AcquireLeftAlone(s, i, e);
  }

  lemma StartAndAcquire(s: Sys, i: InstanceId, q: ProcId, e: int) returns (t: Sys, acts: seq<Action>)
    requires i !in s.instances && q in s.world.procs && s.world.procs[q].alive && s.world.procs[q].host in s.world.hosts
    requires s.row.None?
    ensures Runs(s, acts) && t == After(s, acts) && Joined(s, t, i, q)
  {
    hide Runs, After, Enabled, Apply, JustAcquired;
    StartEffect(s, i, q);
    var s1 := Apply(s, Start(i, q));
    t, acts := AcquiresFree(s1, i, e);
    AcquiredIs(s1, t, i, e);
    RunsCons(s, Start(i, q), acts);
    acts := [Start(i, q)] + acts;
  }

  lemma StartAndTakeOver(s: Sys, i: InstanceId, q: ProcId, e: int) returns (t: Sys, acts: seq<Action>)
    requires i !in s.instances && q in s.world.procs && s.world.procs[q].alive && s.world.procs[q].host in s.world.hosts
    requires s.row.Some? && s.row.value.status == Active
    requires s.row.value.bootId.Some? && s.row.value.pid.Some? && s.row.value.startTicks.Some?
    requires var h := s.world.hosts[s.world.procs[q].host]; s.row.value.hostId == Some(h.machineId) && s.row.value.bootId != Some(h.boot)
    ensures Runs(s, acts) && t == After(s, acts) && Joined(s, t, i, q)
  {
    hide Runs, After, Enabled, Apply, JustAcquired;
    StartEffect(s, i, q);
    var s1 := Apply(s, Start(i, q));
    t, acts := TakesOverEarlierBoot(s1, i, e);
    AcquiredIs(s1, t, i, e);
    RunsCons(s, Start(i, q), acts);
    acts := [Start(i, q)] + acts;
  }

  /** `i` started in process `q` and now owns the row; nothing else changed. */
  ghost predicate Joined(s: Sys, t: Sys, i: InstanceId, q: ProcId) {
    && t.world == s.world && t.instances.Keys == s.instances.Keys + {i}
    && (forall j :: j in s.instances && j != i ==> t.instances[j] == s.instances[j])
    && t.instances[i].proc == q && t.instances[i].active && OwnsRow(t, i)
    && q in s.world.procs && s.world.procs[q].host in s.world.hosts
    && var p := s.world.procs[q];
       var h := s.world.hosts[p.host];
       var r := t.row.value;
       r.bootId == Some(h.boot) && r.hostId == Some(h.machineId) && r.pid == Some(p.pid) && r.startTicks == Some(p.ticks)
  }

  lemma RunsCons(s: Sys, a: Action, acts: seq<Action>)
    requires Enabled(s, a) && Runs(Apply(s, a), acts)
    ensures Runs(s, [a] + acts) && After(s, [a] + acts) == After(Apply(s, a), acts)
  {
    assert ([a] + acts)[1..] == acts;
  }

  /** What takeover is for: a supervisor acquires, its host reboots, and the supervisor started there afterwards, on
      the same pid with the same start ticks even, takes the row over. */
  lemma RebootedHostTakesOver() returns (s: Sys, acts: seq<Action>)
    ensures Init(s) && s.instances == map[] && Runs(s, acts)
    ensures var t := After(s, acts);
            && 0 in t.instances && t.instances[0].proc in t.world.procs && t.instances[0].active && !AliveInstance(t, 0)
            && AliveInstance(t, 1) && t.instances[1].active && OwnsRow(t, 1)
            && ProcOf(t, 0).pid == ProcOf(t, 1).pid && ProcOf(t, 0).ticks == ProcOf(t, 1).ticks
  {
    hide Runs, After, Enabled, Apply;
    s := Sys(World(map[0 := Host(7, 100)], map[0 := Process(0, 100, 41, 5, true)], {100}), None, map[]);
    var s1, first := StartAndAcquire(s, 0, 0, 60);
    var b, c := Reboot(0, 200), Spawn(1, 0, 41, 5);
    RebootEffect(s1);
    RunsSnoc(s, first, b);
    RunsSnoc(s, first + [b], c);
    var s2 := Apply(Apply(s1, b), c);
    var s3, last := StartAndTakeOver(s2, 1, 1, 120);
    acts := first + [b] + [c];
    RunsConcat(s, acts, last);
    acts := acts + last;
  }

  lemma StartEffect(s: Sys, j: InstanceId, q: ProcId)
    requires j !in s.instances && q in s.world.procs && s.world.procs[q].alive
    ensures Enabled(s, Start(j, q)) && Apply(s, Start(j, q)) == s.(instances := s.instances[j := NewInstance(q)])
  {
  }

  lemma AcquiredIs(s: Sys, t: Sys, i: InstanceId, e: int)
    requires Ready(s, i) && JustAcquired(s, t, i, e)
    ensures t.world == s.world && t.row == Some(RowOf(s, i, e)) && t.instances.Keys == s.instances.Keys
    ensures forall j :: j in s.instances && j != i ==> t.instances[j] == s.instances[j]
    ensures t.instances[i].proc == s.instances[i].proc && t.instances[i].stage == Idle && t.instances[i].active && OwnsRow(t, i)
  {
  }

  lemma RebootEffect(s: Sys)
    requires s.world == World(map[0 := Host(7, 100)], map[0 := Process(0, 100, 41, 5, true)], {100})
    ensures var b, c := Reboot(0, 200), Spawn(1, 0, 41, 5);
            && Enabled(s, b) && Enabled(Apply(s, b), c)
            && Apply(Apply(s, b), c) ==
               Sys(World(map[0 := Host(7, 200)], map[0 := Process(0, 100, 41, 5, false), 1 := Process(0, 200, 41, 5, true)], {100, 200}),
                   s.row, s.instances)
  {
    var s1 := Apply(s, Reboot(0, 200));
    assert s1.world.procs == map[0 := Process(0, 100, 41, 5, false)];
    assert !PidInUse(s1.world, 0, 41);
  }

  /** A store with no row and no supervisors yet, machine ids unique or not. */
  ghost predicate InitWithAnyMachines(s: Sys) {
    BootsConsistent(s.world) && LiveConsistent(s.world) && s.row.None? && s.instances == map[]
  }

  const CLONES := World(map[0 := Host(7, 100), 1 := Host(7, 200)],
                        map[0 := Process(0, 100, 41, 5, true), 1 := Process(1, 200, 42, 9, true)], {100, 200})

  lemma ClonesAreConsistent()
    ensures BootsConsistent(CLONES) && LiveConsistent(CLONES) && !MachinesDistinct(CLONES)
  {
    assert CLONES.hosts[0].machineId == CLONES.hosts[1].machineId;
  }

  /** The assumption that machine ids are unique is needed: with two hosts cloned with one machine id, a run from the
      beginning ends with two live supervisors that have both acquired and not released. */
  lemma ClonedMachineIdSplitsTheBrain() returns (s: Sys, acts: seq<Action>)
    ensures InitWithAnyMachines(s) && !MachinesDistinct(s.world) && Runs(s, acts)
    ensures var t := After(s, acts);
            && AliveInstance(t, 0) && t.instances[0].active && AliveInstance(t, 1) && t.instances[1].active
            && OwnsRow(t, 1)
  {
    hide Runs, After, Enabled, Apply, BootsConsistent, LiveConsistent, MachinesDistinct;
    ClonesAreConsistent();
    s := Sys(CLONES, None, map[]);
    var s1, first := StartAndAcquire(s, 0, 0, 60);
    var s2, last := StartAndTakeOver(s1, 1, 1, 120);
    RunsConcat(s, first, last);
    acts := first + last;
  }

  // ------------------------------------------------------------------ the imperative supervisor

  datatype Identity = Identity(boot: BootId, pid: Pid, ticks: Ticks)

  lemma InstanceIsOk(s: Sys, i: InstanceId)
    requires Inv(s) && i in s.instances
    ensures InstanceOk(s, i)
  {
  }

  lemma StepOfTheLiving(s: Sys, a: Action)
    requires Enabled(s, a) && !IsEnvironment(a)
    ensures AliveInstance(Apply(s, a), a.i) && Apply(s, a).instances[a.i] == InstanceAfter(s, a)
  {
  }

  /** One round of `acquire`: the row it read, what its probes answered, and whether its compare-and-swap won. */
  datatype Round = Round(owner: Option<Row>, pidAlive: Option<bool>, ticks: Option<Ticks>, won: bool)

  predicate Contested(r: Round) {
    r.owner.Some? && r.owner.value.status != Released
  }

  function RoundVerdict(r: Round, boot: BootId, machine: Option<MachineId>): Verdict {
    if Contested(r) then
      var o := r.owner.value;
      VerdictOf(ClassifyOwnerLiveness(o.bootId, o.pid, o.startTicks, Some(boot), r.pidAlive, r.ticks, o.hostId, machine))
    else Acquired
  }

  /** Read, probe a row that is not released, and swap only on a verdict that allows it. */
  function RoundSteps(i: InstanceId, expiresAt: int, boot: BootId, machine: Option<MachineId>, r: Round): seq<Action> {
    [ReadRow(i)] + (if Contested(r) then [ProbePid(i, r.pidAlive), ProbeTicks(i, r.ticks)] else [])
    + (if RoundVerdict(r, boot, machine) in {Acquired, Takeover} then [Swap(i, expiresAt)] else [])
  }

  function AllRounds(i: InstanceId, expiresAt: int, boot: BootId, machine: Option<MachineId>, rounds: seq<Round>): seq<Action> {
    if rounds == [] then []
    else AllRounds(i, expiresAt, boot, machine, rounds[..|rounds|-1]) + RoundSteps(i, expiresAt, boot, machine, rounds[|rounds|-1])
  }

  /** A round that neither refused nor won, so that another one may follow. */
  predicate LostRound(r: Round, boot: BootId, machine: Option<MachineId>) {
    RoundVerdict(r, boot, machine) in {Acquired, Takeover} && !r.won
  }

  /** What one call of `acquire` did and what it may answer. */
  predicate AcquireSteps(i: InstanceId, expiresAt: int, boot: Option<BootId>, machine: Option<MachineId>, ticks: Option<Ticks>,
                         rounds: seq<Round>, steps: seq<Action>, verdict: Verdict)
  {
    if boot.None? then verdict == Ambiguous && rounds == [] && steps == [ReadBoot(i, None)]
    else if ticks.None? then
      verdict == Ambiguous && rounds == [] && steps == [ReadBoot(i, boot), ReadMachine(i, machine), ReadOwnTicks(i, None)]
    else
      && steps == [ReadBoot(i, boot), ReadMachine(i, machine), ReadOwnTicks(i, ticks)] + AllRounds(i, expiresAt, boot.value, machine, rounds)
      && EndsWith(boot.value, machine, rounds, verdict)
  }

  /** Only the last round may refuse or win, and its verdict is the answer; losing every round is Ambiguous. */
  predicate EndsWith(boot: BootId, machine: Option<MachineId>, rounds: seq<Round>, verdict: Verdict) {
    && 0 < |rounds| <= MAX_ACQUIRE_ATTEMPTS
    && (forall k :: 0 <= k < |rounds| - 1 ==> LostRound(rounds[k], boot, machine))
    && var last := rounds[|rounds|-1];
       if LostRound(last, boot, machine) then |rounds| == MAX_ACQUIRE_ATTEMPTS && verdict == Ambiguous
       else verdict == RoundVerdict(last, boot, machine)
  }

  /** The shared machine room: the store's row and every host's process table.  Each public method
      is one atomic step of the calling supervisor, preceded by whatever everybody else did since
      the caller's previous step.  `trace` is the history that led from `origin` to `sys`. */
  class Environment {
    var sys: Sys
    ghost var origin: Sys
    ghost var trace: seq<Action>

    ghost predicate Valid()
      reads this
    {
      Inv(origin) && Runs(origin, trace) && sys == After(origin, trace) && Inv(sys)
    }

    constructor (s: Sys)
      requires Init(s)
      ensures Valid() && sys == origin == s && trace == []
    {
      sys, origin, trace := s, s, [];
      new;
      InitEstablishesInv(s);
    }

    /** Any run of the others that leaves the caller alive. */
    method Interfere(i: InstanceId)
      requires Valid() && AliveInstance(sys, i)
      modifies this
      ensures Valid() && origin == old(origin)
      ensures StepsOf(trace, i) == StepsOf(old(trace), i)
      ensures AliveInstance(sys, i) && sys.instances[i] == old(sys).instances[i]
    {
    }

    method Perform(a: Action)
      requires Valid() && Enabled(sys, a)
      modifies this
      ensures Valid() && origin == old(origin) && trace == old(trace) + [a] && sys == Apply(old(sys), a)
      ensures !IsEnvironment(a) ==> AliveInstance(sys, a.i) && sys.instances[a.i] == InstanceAfter(old(sys), a)
      ensures !IsEnvironment(a) ==> StepsOf(trace, a.i) == StepsOf(old(trace), a.i) + [a]
    {
      hide Inv, Runs, After, Apply, Enabled, AliveInstance, InstanceAfter;
      RunsSnoc(origin, trace, a);
      InvPreserved(sys, a);
      if !IsEnvironment(a) {
        StepOfTheLiving(sys, a);
      }
      sys := Apply(sys, a);
      trace := trace + [a];
    }

    method BootIdOf(i: InstanceId) returns (r: Option<BootId>)
      requires Valid() && AliveInstance(sys, i) && sys.instances[i].stage.Idle?
      modifies this
      ensures Valid() && origin == old(origin) && AliveInstance(sys, i)
      ensures StepsOf(trace, i) == StepsOf(old(trace), i) + [ReadBoot(i, r)]
      ensures var x := old(sys).instances[i];
              sys.instances[i] == if r.None? then x else x.(liveBoot := r.value, stage := Booted)
    {
      hide Inv, Runs, After;
      Interfere(i);
      InstanceIsOk(sys, i);
      if * { r := None; } else { r := Some(sys.world.hosts[ProcOf(sys, i).host].boot); }
      Perform(ReadBoot(i, r));
    }

    method MachineIdOf(i: InstanceId) returns (r: Option<MachineId>)
      requires Valid() && AliveInstance(sys, i) && sys.instances[i].stage.Booted?
      modifies this
      ensures Valid() && origin == old(origin) && AliveInstance(sys, i)
      ensures StepsOf(trace, i) == StepsOf(old(trace), i) + [ReadMachine(i, r)]
      ensures sys.instances[i] == old(sys).instances[i].(hostId := r, stage := Hosted)
    {
      hide Inv, Runs, After;
      Interfere(i);
      InstanceIsOk(sys, i);
      if * { r := None; } else { r := Some(sys.world.hosts[ProcOf(sys, i).host].machineId); }
      Perform(ReadMachine(i, r));
    }

    /** `/proc/<pid>/stat` on host `h`: unreadable, or the ticks of the process running there. */
    method StatTicks(h: HostId, p: Pid) returns (r: Option<Ticks>)
      ensures r.Some? ==> TicksObservable(sys.world, h, p, r.value)
    {
      r := None;
      if PidInUse(sys.world, h, p) {
        if * {
          var q :| q in sys.world.procs && RunsAs(sys.world, q, h, p);
          r := Some(sys.world.procs[q].ticks);
        }
      }
    }

    method OwnStartTicks(i: InstanceId) returns (r: Option<Ticks>)
      requires Valid() && AliveInstance(sys, i) && sys.instances[i].stage.Hosted?
      modifies this
      ensures Valid() && origin == old(origin) && AliveInstance(sys, i)
      ensures StepsOf(trace, i) == StepsOf(old(trace), i) + [ReadOwnTicks(i, r)]
      ensures var x := old(sys).instances[i];
              sys.instances[i] == if r.None? then x.(stage := Idle) else x.(ownTicks := r.value, stage := Armed(0))
    {
      hide Inv, Runs, After;
      Interfere(i);
      r := StatTicks(ProcOf(sys, i).host, ProcOf(sys, i).pid);
      Perform(ReadOwnTicks(i, r));
    }

    method GetSupervisorInstance(i: InstanceId) returns (r: Option<Row>)
      requires Valid() && AliveInstance(sys, i) && sys.instances[i].stage.Armed?
      modifies this
      ensures Valid() && origin == old(origin) && AliveInstance(sys, i)
      ensures StepsOf(trace, i) == StepsOf(old(trace), i) + [ReadRow(i)]
      ensures var x := old(sys).instances[i];
              sys.instances[i] ==
              if r.None? || r.value.status == Released then x.(stage := Decided(x.stage.attempts, r, Acquired))
              else x.(stage := Looked(x.stage.attempts, r.value))
    {
      hide Inv, Runs, After;
      Interfere(i);
      r := sys.row;
      Perform(ReadRow(i));
    }

    method PidAlive(i: InstanceId, pid: Option<Pid>) returns (r: Option<bool>)
      requires Valid() && AliveInstance(sys, i)
      requires sys.instances[i].stage.Looked? && pid == sys.instances[i].stage.owner.pid
      modifies this
      ensures Valid() && origin == old(origin) && AliveInstance(sys, i)
      ensures StepsOf(trace, i) == StepsOf(old(trace), i) + [ProbePid(i, r)]
      ensures var x := old(sys).instances[i];
              sys.instances[i] == x.(stage := Probed(x.stage.attempts, x.stage.owner, r))
    {
      hide Inv, Runs, After;
      Interfere(i);
      r := None;
      if pid.Some? {
        if * { r := Some(PidInUse(sys.world, ProcOf(sys, i).host, pid.value)); }
      }
      Perform(ProbePid(i, r));
    }

    method OwnerStartTicks(i: InstanceId, pid: Option<Pid>) returns (r: Option<Ticks>)
      requires Valid() && AliveInstance(sys, i)
      requires sys.instances[i].stage.Probed? && pid == sys.instances[i].stage.owner.pid
      modifies this
      ensures Valid() && origin == old(origin) && AliveInstance(sys, i)
      ensures StepsOf(trace, i) == StepsOf(old(trace), i) + [ProbeTicks(i, r)]
      ensures var x := old(sys).instances[i];
              sys.instances[i] ==
              x.(stage := if ProbeVerdict(old(sys), i, r) == Takeover
                          then Decided(x.stage.attempts, Some(x.stage.owner), Takeover) else Idle)
    {
      hide Inv, Runs, After;
      Interfere(i);
      r := None;
      if pid.Some? && sys.instances[i].stage.pidAlive == Some(true) {
        r := StatTicks(ProcOf(sys, i).host, pid.value);
      }
      Perform(ProbeTicks(i, r));
    }

    /** On success the caller's own identity is what the row now records. */
    method CasSupervisorInstance(i: InstanceId, expiresAt: int) returns (won: bool)
      requires Valid() && AliveInstance(sys, i) && sys.instances[i].stage.Decided?
      modifies this
      ensures Valid() && origin == old(origin) && AliveInstance(sys, i)
      ensures StepsOf(trace, i) == StepsOf(old(trace), i) + [Swap(i, expiresAt)]
      ensures var x := old(sys).instances[i];
              sys.instances[i] ==
              if won then x.(stage := Idle, active := true)
              else if x.stage.attempts + 1 < MAX_ACQUIRE_ATTEMPTS then x.(stage := Armed(x.stage.attempts + 1))
              else x.(stage := Idle)
      ensures won ==> !old(sys).instances[i].active
      ensures won ==> OwnsRow(sys, i) && sys.row.value.leaseExpiresAt == expiresAt
                      && Truthful(sys, sys.row.value)
                      && sys.row.value.bootId == Some(sys.instances[i].liveBoot)
                      && sys.row.value.startTicks == Some(sys.instances[i].ownTicks)
    {
      hide Inv, Runs, After;
      Interfere(i);
      won := SwapWins(sys, i);
      WinnerOwnsRow(sys, i, expiresAt);
      Perform(Swap(i, expiresAt));
    }

    method UpdateLease(i: InstanceId, expiresAt: int) returns (ok: bool)
      requires Valid() && AliveInstance(sys, i)
      modifies this
      ensures Valid() && origin == old(origin) && trace == old(trace) + [Heartbeat(i, expiresAt)]
      ensures ok == HoldsRow(old(sys), i) && sys == Apply(old(sys), Heartbeat(i, expiresAt))
    {
      hide Inv, Runs, After;
      ok := HoldsRow(sys, i);
      Perform(Heartbeat(i, expiresAt));
    }

    method MarkReleased(i: InstanceId) returns (ok: bool)
      requires Valid() && AliveInstance(sys, i)
      modifies this
      ensures Valid() && origin == old(origin) && trace == old(trace) + [Release(i)]
      ensures ok == HoldsRow(old(sys), i) && sys == Apply(old(sys), Release(i))
    {
      hide Inv, Runs, After;
      ok := HoldsRow(sys, i);
      Perform(Release(i));
    }
  }

  lemma WinnerOwnsRow(s: Sys, i: InstanceId, e: int)
    requires Inv(s) && Enabled(s, Swap(i, e))
    ensures var s' := Apply(s, Swap(i, e));
            SwapWins(s, i) ==>
              && !s.instances[i].active && OwnsRow(s', i) && s'.row.value.leaseExpiresAt == e && Truthful(s', s'.row.value)
              && s'.row.value.bootId == Some(s'.instances[i].liveBoot)
              && s'.row.value.startTicks == Some(s'.instances[i].ownTicks)
  {
    if SwapWins(s, i) {
      RowStaysTruthful(s, Swap(i, e));
      SwapDisplacesNobody(s, i, e, i);
    }
  }

  class SupervisorInstance {
    const instanceId: InstanceId
    var identity: Option<Identity>

    constructor (id: InstanceId)
      ensures instanceId == id && identity == None
    {
      instanceId := id;
      identity := None;
    }

    /** `_classify_existing`: two probes of the recorded owner, taken at different instants. */
    method ClassifyExisting(env: Environment, owner: Row, boot: BootId, machine: Option<MachineId>)
      returns (verdict: Verdict, ghost alive: Option<bool>, ghost ticks: Option<Ticks>)
      requires env.Valid() && AliveInstance(env.sys, instanceId)
      requires var x := env.sys.instances[instanceId];
               x.stage.Looked? && x.stage.owner == owner && x.liveBoot == boot && x.hostId == machine
      modifies env
      ensures env.Valid() && env.origin == old(env.origin)
      ensures AliveInstance(env.sys, instanceId)
      ensures var x := old(env.sys).instances[instanceId];
              env.sys.instances[instanceId] ==
              x.(stage := if verdict == Takeover then Decided(x.stage.attempts, Some(owner), Takeover) else Idle)
      ensures StepsOf(env.trace, instanceId) == StepsOf(old(env.trace), instanceId) + [ProbePid(instanceId, alive), ProbeTicks(instanceId, ticks)]
      ensures verdict == VerdictOf(ClassifyOwnerLiveness(owner.bootId, owner.pid, owner.startTicks, Some(boot),
                                                         alive, ticks, owner.hostId, machine))
    {
      hide Inv, Runs, After, StepsOf;
      var pidAlive := env.PidAlive(instanceId, owner.pid);
      var startTicks := env.OwnerStartTicks(instanceId, owner.pid);
      alive, ticks := pidAlive, startTicks;
      verdict := VerdictOf(ClassifyOwnerLiveness(owner.bootId, owner.pid, owner.startTicks, Some(boot),
                                                 pidAlive, startTicks, owner.hostId, machine));
    }

    /** Every execution of `Acquire`, whatever interferes with it, is a run of the system; it
        reports success exactly when it made this instance active, which then owns the row; one that was active
        already is never told that it acquired. */
    method Acquire(env: Environment, expiresAt: int)
      returns (verdict: Verdict, ghost boot: Option<BootId>, ghost machine: Option<MachineId>, ghost ticks: Option<Ticks>,
               ghost rounds: seq<Round>, ghost steps: seq<Action>)
      requires env.Valid() && AliveInstance(env.sys, instanceId)
      requires env.sys.instances[instanceId].stage.Idle?
      modifies this, env
      ensures env.Valid() && env.origin == old(env.origin)
      ensures AliveInstance(env.sys, instanceId) && env.sys.instances[instanceId].stage.Idle?
      ensures StepsOf(env.trace, instanceId) == StepsOf(old(env.trace), instanceId) + steps
      ensures AcquireSteps(instanceId, expiresAt, boot, machine, ticks, rounds, steps, verdict)
      ensures env.sys.instances[instanceId].active == (old(env.sys).instances[instanceId].active || verdict in {Acquired, Takeover})
      ensures old(env.sys).instances[instanceId].active ==> verdict !in {Acquired, Takeover}
      ensures verdict in {Acquired, Takeover} ==>
                && OwnsRow(env.sys, instanceId) && env.sys.row.value.leaseExpiresAt == expiresAt
                && var p := ProcOf(env.sys, instanceId); identity == Some(Identity(p.boot, p.pid, p.ticks))
      ensures verdict !in {Acquired, Takeover} ==> identity == old(identity)
    {
      hide Inv, Runs, After, StepsOf, EndsWith, AllRounds;
      machine, ticks, rounds := None, None, [];
      var liveBoot := env.BootIdOf(instanceId);
      boot, steps := liveBoot, [ReadBoot(instanceId, liveBoot)];
      if liveBoot.None? {
        verdict := Ambiguous;
        return;
      }
      var hostId := env.MachineIdOf(instanceId);
      var ownTicks := env.OwnStartTicks(instanceId);
      machine, ticks := hostId, ownTicks;
      steps := steps + [ReadMachine(instanceId, hostId), ReadOwnTicks(instanceId, ownTicks)];
      if ownTicks.None? {
        verdict := Ambiguous;
        return;
      }
      verdict, rounds := Contend(env, liveBoot.value, hostId, ownTicks.value, expiresAt);
      steps := steps + AllRounds(instanceId, expiresAt, liveBoot.value, hostId, rounds);
    }

    /** The bounded retry loop. */
    method Contend(env: Environment, boot: BootId, machine: Option<MachineId>, ownTicks: Ticks, expiresAt: int)
      returns (verdict: Verdict, ghost rounds: seq<Round>)
      requires env.Valid() && AliveInstance(env.sys, instanceId)
      requires var x := env.sys.instances[instanceId];
               x.liveBoot == boot && x.hostId == machine && x.ownTicks == ownTicks && x.stage == Armed(0)
      modifies this, env
      ensures env.Valid() && env.origin == old(env.origin)
      ensures AliveInstance(env.sys, instanceId) && env.sys.instances[instanceId].stage.Idle?
      ensures StepsOf(env.trace, instanceId) == StepsOf(old(env.trace), instanceId) + AllRounds(instanceId, expiresAt, boot, machine, rounds)
      ensures EndsWith(boot, machine, rounds, verdict)
      ensures env.sys.instances[instanceId].active == (old(env.sys).instances[instanceId].active || verdict in {Acquired, Takeover})
      ensures old(env.sys).instances[instanceId].active ==> verdict !in {Acquired, Takeover}
      ensures if verdict in {Acquired, Takeover} then
                && OwnsRow(env.sys, instanceId) && env.sys.row.value.leaseExpiresAt == expiresAt
                && var p := ProcOf(env.sys, instanceId); identity == Some(Identity(p.boot, p.pid, p.ticks))
              else identity == old(identity)
    {
      hide Inv, Runs, After, StepsOf, RoundSteps, RoundVerdict;
      rounds := [];
      var attempt := 0;
      while attempt < MAX_ACQUIRE_ATTEMPTS
        invariant 0 <= attempt <= MAX_ACQUIRE_ATTEMPTS && identity == old(identity)
        invariant env.Valid() && env.origin == old(env.origin)
        invariant AliveInstance(env.sys, instanceId)
        invariant var x := env.sys.instances[instanceId];
                  && x.active == old(env.sys).instances[instanceId].active && x.liveBoot == boot && x.hostId == machine && x.ownTicks == ownTicks
                  && x.stage == if attempt < MAX_ACQUIRE_ATTEMPTS then Armed(attempt) else Idle
        invariant StepsOf(env.trace, instanceId) == StepsOf(old(env.trace), instanceId) + AllRounds(instanceId, expiresAt, boot, machine, rounds)
        invariant |rounds| == attempt && forall k :: 0 <= k < attempt ==> LostRound(rounds[k], boot, machine)
      {
        var won;
        ghost var round;
        verdict, won, round := TryOnce(env, attempt, boot, machine, ownTicks, expiresAt);
        ghost var before := rounds;
        rounds := rounds + [round];
        assert rounds[..attempt] == before;
        if verdict in {LiveOwner, Ambiguous} || won { return; }
        attempt := attempt + 1;
      }
      verdict := Ambiguous;
    }

    /** One round of the retry loop. */
    method TryOnce(env: Environment, attempt: nat, boot: BootId, machine: Option<MachineId>, ownTicks: Ticks, expiresAt: int)
      returns (verdict: Verdict, won: bool, ghost round: Round)
      requires env.Valid() && AliveInstance(env.sys, instanceId) && attempt < MAX_ACQUIRE_ATTEMPTS
      requires var x := env.sys.instances[instanceId];
               x.liveBoot == boot && x.hostId == machine && x.ownTicks == ownTicks && x.stage == Armed(attempt)
      modifies this, env
      ensures env.Valid() && env.origin == old(env.origin) && AliveInstance(env.sys, instanceId)
      ensures StepsOf(env.trace, instanceId) == StepsOf(old(env.trace), instanceId) + RoundSteps(instanceId, expiresAt, boot, machine, round)
      ensures verdict == RoundVerdict(round, boot, machine) && round.won == won && (won ==> verdict in {Acquired, Takeover})
      ensures var x := env.sys.instances[instanceId];
              && x.liveBoot == boot && x.hostId == machine && x.ownTicks == ownTicks
              && x.active == (old(env.sys).instances[instanceId].active || won) && (won ==> !old(env.sys).instances[instanceId].active)
              && x.stage == if verdict in {Acquired, Takeover} && !won && attempt + 1 < MAX_ACQUIRE_ATTEMPTS then Armed(attempt + 1) else Idle
      ensures if won then
                && OwnsRow(env.sys, instanceId) && env.sys.row.value.leaseExpiresAt == expiresAt
                && var p := ProcOf(env.sys, instanceId); identity == Some(Identity(p.boot, p.pid, p.ticks))
              else identity == old(identity)
    {
      hide Inv, Runs, After, StepsOf, ClassifyOwnerLiveness;
      won := false;
      var owner := env.GetSupervisorInstance(instanceId);
      verdict := Acquired;
      ghost var alive, ticks := None, None;
      if owner.Some? && owner.value.status != Released {
        verdict, alive, ticks := ClassifyExisting(env, owner.value, boot, machine);
      }
      round := Round(owner, alive, ticks, false);
      if verdict in {LiveOwner, Ambiguous} { return; }
      won := env.CasSupervisorInstance(instanceId, expiresAt);
      round := round.(won := won);
      if won {
        identity := Some(Identity(boot, ProcOf(env.sys, instanceId).pid, ownTicks));
      }
    }

    /** Renews the lease; a live active holder is never refused, a displaced one changes nothing. */
    method RenewLease(env: Environment, expiresAt: int) returns (ok: bool)
      requires env.Valid() && AliveInstance(env.sys, instanceId)
      modifies env
      ensures env.Valid() && env.origin == old(env.origin) && env.sys == Apply(old(env.sys), Heartbeat(instanceId, expiresAt))
      ensures old(env.sys).instances[instanceId].active ==> ok
      ensures !ok ==> env.sys.row == old(env.sys).row
    {
      if env.sys.instances[instanceId].active { LiveHolderOwns(env.sys, instanceId); }
      ok := env.UpdateLease(instanceId, expiresAt);
    }

    /** Gives the row up; a live active holder always succeeds and is no longer active. */
    method ReleaseRow(env: Environment) returns (ok: bool)
      requires env.Valid() && AliveInstance(env.sys, instanceId)
      modifies env
      ensures env.Valid() && env.origin == old(env.origin) && env.sys == Apply(old(env.sys), Release(instanceId))
      ensures old(env.sys).instances[instanceId].active ==> ok
      ensures if ok then env.sys.row.Some? && env.sys.row.value.status == Released
              else env.sys.row == old(env.sys).row
      ensures !env.sys.instances[instanceId].active
    {
      if env.sys.instances[instanceId].active { LiveHolderOwns(env.sys, instanceId); }
      ok := env.MarkReleased(instanceId);
    }
  }
}
