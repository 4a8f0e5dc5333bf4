/** The state shared by all etcdfab processes, and the effect of each call they make on it.

    The member API of etcd is reduced to what etcdfab sees: MemberAdd creates an entry with an
    empty name, MemberRemove deletes by id, and a running etcd later publishes its own name.
    Which cluster answers a call, or that none does, is an input of the call. */
module Fleet {
  import opened Wrappers
  import opened Text

  type ClusterId = nat
  type NodeId = nat
  type Pid = p: nat | 0 < p <= MAX_INT witness 1

  /** A node's name and its advertised peer URL. */
  datatype Identity = Identity(name: string, url: string)
  type Deployment = map<NodeId, Identity>

  /** A membership entry; `peerUrl` is the first of its peer URLs. */
  datatype Member = Member(id: string, name: string, peerUrl: string)

  /** One VM. `procs` are its live etcd processes, each with the cluster it belongs to; `data` is the
      cluster recorded in its data directory; `started` and `killed` are the history of this VM. */
  datatype Host = Host(
    procs: map<Pid, ClusterId>,
    data: Option<ClusterId>,
    pidFile: Option<string>,
    started: seq<Pid>,
    killed: seq<Pid>)

  datatype World = World(
    clusters: map<ClusterId, seq<Member>>,
    hosts: map<NodeId, Host>,
    usedIds: set<string>)

  /** What GetInitialClusterState hands to etcd: `--initial-cluster` and `--initial-cluster-state`.
      An existing cluster is the one that answered the member list. */
  datatype Plan =
    | NewCluster(members: string)
    | ExistingCluster(members: string, cluster: ClusterId)

  datatype Error =
    | ConfigError
    | MemberAddError
    | LaunchError
    | SyncError
    | PidFileMissing
    | PidFileInvalid
    | KillError
    | PidFileRemoveError
    | PidFileWriteError

  predicate HasUrl(ms: seq<Member>, url: string) { exists m :: m in ms && m.peerUrl == url }

  predicate HasId(ms: seq<Member>, id: string) { exists m :: m in ms && m.id == id }

  // ---- the member API ----

  /** MemberList as served by a cluster; the client returns an empty list with its error. */
  function Listed(w: World, served: Option<ClusterId>): Option<seq<Member>>
  {
    if served.Some? && served.value in w.clusters then Some(w.clusters[served.value]) else None
  }

  function SetMembers(w: World, c: ClusterId, ms: seq<Member>): World
  {
    w.(clusters := w.clusters[c := ms])
  }

  function MemberAdd(w: World, served: Option<ClusterId>, id: string, url: string): Option<World>
  {
    match Listed(w, served)
    case None => None
    case Some(ms) =>
      Some(SetMembers(w, served.value, ms + [Member(id, "", url)]).(usedIds := w.usedIds + {id}))
  }

  /** The entries left when those with one id are gone. */
  function WithoutId(ms: seq<Member>, id: string): (r: seq<Member>)
    ensures forall m :: m in r <==> m in ms && m.id != id
  {
    if ms == [] then []
    else
      var rest := WithoutId(ms[1..], id);
      if ms[0].id == id then rest else [ms[0]] + rest
  }

  /** MemberRemove fails when unanswered, on the empty id, and on an id the cluster does not hold. */
  function MemberRemove(w: World, served: Option<ClusterId>, id: string): Option<World>
  {
    match Listed(w, served)
    case None => None
    case Some(ms) =>
      if id == "" || !HasId(ms, id) then None else Some(SetMembers(w, served.value, WithoutId(ms, id)))
  }

  /** The running etcd of a node announces its name on its own entry. */
  function Named(ms: seq<Member>, me: Identity): (r: seq<Member>)
    ensures |r| == |ms|
    ensures forall k :: 0 <= k < |ms| ==>
              r[k] == if ms[k].peerUrl == me.url then ms[k].(name := me.name) else ms[k]
  {
    seq(|ms|, k requires 0 <= k < |ms| => if ms[k].peerUrl == me.url then ms[k].(name := me.name) else ms[k])
  }

  function Publish(w: World, c: ClusterId, me: Identity): World
  {
    if c in w.clusters then SetMembers(w, c, Named(w.clusters[c], me)) else w
  }

  // ---- the VM ----

  function SetHost(w: World, i: NodeId, h: Host): World
  {
    w.(hosts := w.hosts[i := h])
  }

  /** The cluster a launched etcd joins: a data directory wins over the flags. */
  function Target(h: Host, plan: Plan, created: ClusterId): ClusterId
  {
    if h.data.Some? then h.data.value else if plan.ExistingCluster? then plan.cluster else created
  }

  predicate Bootstraps(h: Host, plan: Plan) { h.data.None? && plan.NewCluster? }

  function WithProcess(h: Host, pid: Pid, c: ClusterId): Host
  {
    h.(procs := h.procs[pid := c], data := Some(c), started := h.started + [pid])
  }

  function Launch(w: World, i: NodeId, me: Identity, plan: Plan, pid: Pid, created: ClusterId, id: string): World
    requires i in w.hosts
  {
    var h := w.hosts[i];
    var w1 := SetHost(w, i, WithProcess(h, pid, Target(h, plan, created)));
    if Bootstraps(h, plan) then SetMembers(w1, created, [Member(id, me.name, me.url)]).(usedIds := w.usedIds + {id})
    else w1
  }

  function Wiped(h: Host, ok: bool): Host
  {
    if ok then h.(data := None) else h
  }

  /** The process the pid file names, if it is alive. */
  function PidToKill(h: Host): Option<Pid>
  {
    match h.pidFile
    case None => None
    case Some(text) =>
      match Atoi(text)
      case None => None
      case Some(n) => if 0 < n && n in h.procs then Some(n) else None
  }

  /** The error the kill step ends with: the file is read, parsed, the process killed, the file removed. */
  function KillOutcome(h: Host, unlinked: bool): Option<Error>
  {
    if h.pidFile.None? then Some(PidFileMissing)
    else if Atoi(h.pidFile.value).None? then Some(PidFileInvalid)
    else if PidToKill(h).None? then Some(KillError)
    else if !unlinked then Some(PidFileRemoveError)
    else None
  }

  function Killed(h: Host, unlinked: bool): Host
  {
    match PidToKill(h)
    case None => h
    case Some(pid) =>
      h.(procs := h.procs - {pid}, killed := h.killed + [pid], pidFile := if unlinked then None else h.pidFile)
  }

  // ---- facts about entry lists ----

  predicate UniqueIds(ms: seq<Member>) { forall j, k :: 0 <= j < k < |ms| ==> ms[j].id != ms[k].id }

  predicate UniqueUrls(ms: seq<Member>) { forall j, k :: 0 <= j < k < |ms| ==> ms[j].peerUrl != ms[k].peerUrl }

  /** No two entries share an id or a first peer URL. */
  predicate Unique(ms: seq<Member>) { UniqueIds(ms) && UniqueUrls(ms) }

  lemma WithoutIdHead(ms: seq<Member>, id: string)
    requires ms != []
    ensures WithoutId(ms, id) == (if ms[0].id == id then [] else [ms[0]]) + WithoutId(ms[1..], id)
    ensures forall k :: 0 <= k < |WithoutId(ms[1..], id)| ==> WithoutId(ms[1..], id)[k] in ms[1..]
  {
    var rest := WithoutId(ms[1..], id);
    assert forall k :: 0 <= k < |rest| ==> rest[k] in rest;
  }

  lemma {:induction false} WithoutIdUniqueUrls(ms: seq<Member>, id: string)
    requires UniqueUrls(ms)
    ensures UniqueUrls(WithoutId(ms, id))
  {
    if ms != [] {
      WithoutIdHead(ms, id);
      WithoutIdUniqueUrls(ms[1..], id);
    }
  }

  /** Removing an id takes at most one entry. */
  lemma {:induction false} WithoutIdUniqueIds(ms: seq<Member>, id: string)
    requires UniqueIds(ms)
    ensures UniqueIds(WithoutId(ms, id))
    ensures |WithoutId(ms, id)| == if HasId(ms, id) then |ms| - 1 else |ms|
  {
    if ms != [] {
      WithoutIdHead(ms, id);
      WithoutIdUniqueIds(ms[1..], id);
      assert ms == [ms[0]] + ms[1..];
      assert ms[0].id == id ==> !HasId(ms[1..], id);
      assert ms[0].id != id ==> (HasId(ms, id) <==> HasId(ms[1..], id));
    }
  }

  lemma NamedEntry(ms: seq<Member>, me: Identity, m: Member)
    requires m in Named(ms, me)
    ensures exists o :: o in ms && o.id == m.id && o.peerUrl == m.peerUrl &&
                        m.name == (if o.peerUrl == me.url then me.name else o.name)
  {
    var k :| 0 <= k < |ms| && Named(ms, me)[k] == m;
    assert ms[k] in ms;
  }
}
