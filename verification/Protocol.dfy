/** All nodes at once. Each call to etcd, the process table or the disk is one atomic step, taken by
    any node at any time; etcd publishing a name and a process exiting are steps of the environment.
    The steps are those of Application.Start and Application.Stop (see Refinement.dfy). */
module Protocol {
  import opened Wrappers
  import Text
  import opened Fleet
  import opened ClusterController
  import opened Application

  /** What a node's etcdfab is about to do. */
  datatype Phase =
    | Idle
    | Listing(failures: nat)
    | Adding(prior: seq<Member>, cluster: ClusterId)
    | Launching(plan: Plan)
    | Syncing(plan: Plan, pid: Pid)
    | WritingPid(pid: Pid)
    | Deciding
    | Looking
    | Removing(id: string)
    | Wiping
    | Killing

  datatype State = State(world: World, phase: map<NodeId, Phase>)

  /** `served` is the cluster that answers the call, if any does. */
  datatype Step =
    | BeginStart(node: NodeId)
    | List(node: NodeId, served: Option<ClusterId>)
    | Add(node: NodeId, served: Option<ClusterId>, newId: string)
    | Launch(node: NodeId, launched: Option<Pid>, created: ClusterId, newId: string)
    | Sync(node: NodeId, synced: bool)
    | WritePid(node: NodeId, written: bool)
    | BeginStop(node: NodeId)
    | Decide(node: NodeId, served: Option<ClusterId>)
    | Look(node: NodeId, served: Option<ClusterId>)
    | Remove(node: NodeId, served: Option<ClusterId>)
    | Wipe(node: NodeId, wiped: bool)
    | Kill(node: NodeId, unlinked: bool)
    | Publish(node: NodeId, cluster: ClusterId)
    | Exit(node: NodeId, pid: Pid)
    | Abort(node: NodeId)       // etcdfab itself is killed, by monit's timeout or with its VM

  /** Names and URLs tell the nodes apart. */
  ghost predicate Distinct(d: Deployment)
  {
    && (forall i :: i in d ==> d[i].name != "")
    && (forall i, j {:trigger d[i], d[j]} ::
          i in d && j in d && i != j ==> d[i].name != d[j].name && d[i].url != d[j].url)
  }

  ghost predicate Shape(d: Deployment, s: State)
  {
    s.phase.Keys == d.Keys && s.world.hosts.Keys == d.Keys
  }

  predicate RunsIn(h: Host, c: ClusterId) { exists p :: p in h.procs && h.procs[p] == c }

  /** Some etcd process of the cluster is alive. */
  predicate Live(w: World, c: ClusterId)
  {
    exists i :: i in w.hosts && RunsIn(w.hosts[i], c)
  }

  /** Only a live cluster answers. */
  predicate MayServe(w: World, served: Option<ClusterId>)
  {
    served.Some? ==> served.value in w.clusters && Live(w, served.value)
  }

  predicate NewId(w: World, id: string) { id != "" && id !in w.usedIds }

  ghost predicate Enabled(d: Deployment, s: State, step: Step)
    requires Shape(d, s)
  {
    && step.node in d
    && var w, h, p := s.world, s.world.hosts[step.node], s.phase[step.node];
       match step
       case BeginStart(_) => p.Idle?
       case List(_, served) => p.Listing? && MayServe(w, served)
       case Add(_, served, id) => p.Adding? && MayServe(w, served) && NewId(w, id)
       case Launch(_, launched, created, id) =>
         p.Launching? && (launched.Some? ==>
                            launched.value !in h.procs
                            && (Bootstraps(h, p.plan) ==> created !in w.clusters && NewId(w, id)))
       case Sync(_, _) => p.Syncing?
       case WritePid(_, _) => p.WritingPid?
       case BeginStop(_) => p.Idle?
       case Decide(_, served) => p.Deciding? && MayServe(w, served)
       case Look(_, served) => p.Looking? && MayServe(w, served)
       case Remove(_, served) => p.Removing? && MayServe(w, served)
       case Wipe(_, _) => p.Wiping?
       case Kill(_, _) => p.Killing?
       case Publish(_, c) => c in w.clusters && RunsIn(h, c)
       case Exit(_, pid) => pid in h.procs
       case Abort(_) => !p.Idle?
  }

  function To(s: State, i: NodeId, w: World, p: Phase): State { State(w, s.phase[i := p]) }

  function AfterList(prior: seq<Member>, cluster: Option<ClusterId>, self: Identity): Phase
    requires prior != [] ==> cluster.Some?
  {
    if MustAdd(prior, self) then Adding(prior, cluster.value) else Launching(PlanFor(prior, cluster, self))
  }

  /** A failed list is retried until the last try, which counts as an empty list. */
  function ListPhase(w: World, failures: nat, served: Option<ClusterId>, self: Identity): Phase
  {
    match Listed(w, served)
    case Some(ms) => AfterList(ms, served, self)
    case None => if failures + 1 >= MEMBER_LIST_TRIES then AfterList([], None, self) else Listing(failures + 1)
  }

  function Exited(h: Host, pid: Pid): Host { h.(procs := h.procs - {pid}) }

  ghost function Next(d: Deployment, s: State, step: Step): (r: State)
    requires Shape(d, s) && Enabled(d, s, step)
    ensures Shape(d, r)
  {
    var i := step.node;
    var w, h, p, self := s.world, s.world.hosts[i], s.phase[i], d[i];
    match step
    case BeginStart(_) => To(s, i, w, Listing(0))
    case List(_, served) => To(s, i, w, ListPhase(w, p.failures, served, self))
    case Add(_, served, id) =>
      (match MemberAdd(w, served, id, self.url)
       case None => To(s, i, w, Idle)
       case Some(w1) => To(s, i, w1, Launching(PlanFor(p.prior, Some(p.cluster), self))))
    case Launch(_, launched, created, id) =>
      if launched.None? then To(s, i, w, Idle)
      else To(s, i, Fleet.Launch(w, i, self, p.plan, launched.value, created, id), Syncing(p.plan, launched.value))
    case Sync(_, synced) =>
      To(s, i, w, if synced then WritingPid(p.pid) else if p.plan.ExistingCluster? then Looking else Wiping)
    case WritePid(_, written) =>
      To(s, i, if written then SetHost(w, i, h.(pidFile := Some(Text.Decimal(p.pid)))) else w, Idle)
    case BeginStop(_) => To(s, i, w, Deciding)
    case Decide(_, served) =>
      To(s, i, w, if HadOtherNodes(Listed(w, served), self.name) then Looking else Wiping)
    case Look(_, served) => To(s, i, w, Removing(OwnId(Listed(w, served), self.name)))
    case Remove(_, served) =>
      (match MemberRemove(w, served, p.id)
       case None => To(s, i, w, Wiping)
       case Some(w1) => To(s, i, w1, Wiping))
    case Wipe(_, wiped) => To(s, i, SetHost(w, i, Wiped(h, wiped)), Killing)
    case Kill(_, unlinked) => To(s, i, SetHost(w, i, Killed(h, unlinked)), Idle)
    case Publish(_, c) => s.(world := Fleet.Publish(w, c, self))
    case Exit(_, pid) => s.(world := SetHost(w, i, Exited(h, pid)))
    case Abort(_) => To(s, i, w, Idle)
  }

  /** `steps` lead from `s` to `t`. */
  ghost predicate Run(d: Deployment, s: State, steps: seq<Step>, t: State)
    requires Shape(d, s)
    decreases |steps|
  {
    if steps == [] then s == t
    else Enabled(d, s, steps[0]) && Run(d, Next(d, s, steps[0]), steps[1..], t)
  }

  /** A condition on a step and the state it is taken in. */
  type Condition = (State, Step) -> bool

  /** Every step of a run meets a condition. */
  ghost predicate Each(d: Deployment, s: State, steps: seq<Step>, ok: Condition)
    requires Shape(d, s)
    decreases |steps|
  {
    steps == [] || (Enabled(d, s, steps[0]) && ok(s, steps[0]) && Each(d, Next(d, s, steps[0]), steps[1..], ok))
  }

  // ---- what every step does to the membership ----

  /** An entry belongs to a node: it has its URL, and its name or none. */
  ghost predicate Owned(d: Deployment, m: Member)
  {
    exists j :: j in d && m.peerUrl == d[j].url && (m.name == "" || m.name == d[j].name)
  }

  ghost predicate Entry(w: World, c: ClusterId, m: Member) { c in w.clusters && m in w.clusters[c] }

  predicate SameEntry(m: Member, n: Member) { m.id == n.id && m.peerUrl == n.peerUrl }

  /** Ids are real, recorded, and never shared, not even between clusters; every entry is some node's. */
  ghost predicate EntriesOk(d: Deployment, w: World)
  {
    && (forall c, m :: Entry(w, c, m) ==> m.id != "" && m.id in w.usedIds && Owned(d, m))
    && (forall c, e, m, n :: Entry(w, c, m) && Entry(w, e, n) && m.id == n.id ==> c == e && m == n)
    && (forall c :: c in w.clusters ==> UniqueIds(w.clusters[c]))
  }

  /** An id about to be removed is the id of an own entry, or of none. */
  ghost predicate RemovalsOk(d: Deployment, s: State)
    requires Shape(d, s)
  {
    forall i :: i in d && s.phase[i].Removing? && s.phase[i].id != "" ==>
                  s.phase[i].id in s.world.usedIds
                  && forall c, m :: Entry(s.world, c, m) && m.id == s.phase[i].id ==> m.peerUrl == d[i].url
  }

  ghost predicate Inv(d: Deployment, s: State)
  {
    Distinct(d) && Shape(d, s) && EntriesOk(d, s.world) && RemovalsOk(d, s)
  }

  /** Every entry keeps its place, id and URL. */
  ghost predicate Persists(w: World, v: World)
  {
    forall c, m :: Entry(w, c, m) ==> exists n :: Entry(v, c, n) && SameEntry(m, n)
  }

  /** A step of node `i`: entries keep id and URL, new ones are its own with a new id, and every other
      node's entry is left as it is. */
  ghost predicate Evolves(d: Deployment, w: World, v: World, i: NodeId)
    requires i in d
  {
    && w.usedIds <= v.usedIds
    && w.clusters.Keys <= v.clusters.Keys
    && (forall c, m: Member :: m.peerUrl != d[i].url ==> (Entry(v, c, m) <==> Entry(w, c, m)))
    && (forall c, n :: Entry(v, c, n) && n.peerUrl == d[i].url ==>
          n.id !in w.usedIds || exists m :: Entry(w, c, m) && SameEntry(m, n))
  }
}
