/** Starting and stopping one node: etcdfab/application/application.go. */
module Application {
  import opened Wrappers
  import opened Text
  import opened Fleet
  import opened Site
  import opened ClusterController
  import opened SyncController

  /** How one Start or Stop ends; a successful one has no error. */
  datatype Result = Result(world: World, error: Option<Error>, slept: nat)

  /** The decision whether to leave the cluster, on the list as answered. */
  predicate HadOtherNodes(list: Option<seq<Member>>, name: string)
  {
    match list
    case None => false
    case Some(ms) => |ms| > 1 || (|ms| == 1 && ms[0].name != name)
  }

  /** The id of the last entry with a name; the empty id when there is none. */
  function LastWithName(ms: seq<Member>, name: string): (id: string)
    ensures (forall m :: m in ms ==> m.name != name) ==> id == ""
    ensures (exists m :: m in ms && m.name == name) ==> exists m :: m in ms && m.name == name && m.id == id
  {
    if ms == [] then ""
    else if ms[|ms| - 1].name == name then ms[|ms| - 1].id
    else LastWithName(ms[..|ms| - 1], name)
  }

  /** The last of the entries with the name decides; without one the id is empty. */
  lemma {:induction false} LastWithNameExactly(ms: seq<Member>, name: string)
    ensures var id := LastWithName(ms, name);
            || (id == "" && forall m :: m in ms ==> m.name != name)
            || exists k :: 0 <= k < |ms| && ms[k].name == name && ms[k].id == id &&
                           forall j :: k < j < |ms| ==> ms[j].name != name
  {
    if ms != [] && ms[|ms| - 1].name != name {
      var before := ms[..|ms| - 1];
      LastWithNameExactly(before, name);
      assert ms == before + [ms[|ms| - 1]];
      if k :| 0 <= k < |before| && before[k].name == name && before[k].id == LastWithName(ms, name) &&
              forall j :: k < j < |before| ==> before[j].name != name {
        assert ms[k].name == name && forall j :: k < j < |ms| ==> ms[j].name != name;
      }
    }
  }

  /** The id removeSelfFromCluster asks to remove. */
  function OwnId(list: Option<seq<Member>>, name: string): string
  {
    if list.None? then "" else LastWithName(list.value, name)
  }

  /** Errors of both calls are only logged. */
  function RemoveSelf(w: World, self: Identity, a: StopAnswers): (r: World)
    ensures r.hosts == w.hosts
  {
    match MemberRemove(w, a.removed, OwnId(Listed(w, a.relisted), self.name))
    case None => w
    case Some(w1) => w1
  }

  /** Wiping the data directory and killing whatever the pid file names. */
  function TakenDown(h: Host, a: StopAnswers): Host
  {
    Killed(Wiped(h, a.wiped), a.unlinked)
  }

  function Stop(w: World, i: NodeId, self: Identity, a: StopAnswers): (r: Result)
    requires i in w.hosts
    ensures r.world.hosts == if a.configured then w.hosts[i := TakenDown(w.hosts[i], a)] else w.hosts
  {
    if !a.configured then Result(w, Some(ConfigError), 0)
    else
      var w1 := if HadOtherNodes(Listed(w, a.decided), self.name) then RemoveSelf(w, self, a) else w;
      Result(SetHost(w1, i, TakenDown(w.hosts[i], a)), KillOutcome(w.hosts[i], a.unlinked), 0)
  }

  /** etcd is launched, and perhaps publishes its name. */
  function LaunchAndPublish(w: World, i: NodeId, self: Identity, plan: Plan, pid: Pid, a: StartAnswers): (r: World)
    requires i in w.hosts
    ensures r.hosts == w.hosts[i := WithProcess(w.hosts[i], pid, Target(w.hosts[i], plan, a.created))]
  {
    var w1 := Launch(w, i, self, plan, pid, a.created, a.newId);
    if a.published then Publish(w1, Target(w.hosts[i], plan, a.created), self) else w1
  }

  /** What a Start that failed to sync undoes. */
  function RollBack(w: World, i: NodeId, self: Identity, plan: Plan, a: StopAnswers): (r: World)
    requires i in w.hosts
    ensures r.hosts == w.hosts[i := TakenDown(w.hosts[i], a)]
    ensures r.clusters == if plan.ExistingCluster? then RemoveSelf(w, self, a).clusters else w.clusters
  {
    var w1 := if plan.ExistingCluster? then RemoveSelf(w, self, a) else w;
    SetHost(w1, i, TakenDown(w.hosts[i], a))
  }

  function RollBackError(h: Host, a: StopAnswers): Error
  {
    var killError := KillOutcome(h, a.unlinked);
    if killError.Some? then killError.value else SyncError
  }

  /** The part of a Start after etcd is running. */
  function Finish(w: World, i: NodeId, self: Identity, plan: Plan, pid: Pid, a: StartAnswers): Result
    requires i in w.hosts
  {
    var v := Verify(a.selfClient, a.keys);
    if !v.synced then
      Result(RollBack(w, i, self, plan, a.rollback), Some(RollBackError(w.hosts[i], a.rollback)), v.slept)
    else if !a.pidWritten then Result(w, Some(PidFileWriteError), v.slept)
    else Result(SetHost(w, i, w.hosts[i].(pidFile := Some(Decimal(pid)))), None, v.slept)
  }

  function Start(w: World, i: NodeId, self: Identity, a: StartAnswers): Result
    requires i in w.hosts
  {
    if !a.configured then Result(w, Some(ConfigError), 0)
    else
      var o := InitialClusterState(w, self, a);
      if o.plan.None? then Result(o.world, Some(MemberAddError), o.slept)
      else if a.launched.None? then Result(o.world, Some(LaunchError), o.slept)
      else
        var w2 := LaunchAndPublish(o.world, i, self, o.plan.value, a.launched.value, a);
        var r := Finish(w2, i, self, o.plan.value, a.launched.value, a);
        r.(slept := o.slept + r.slept)
  }

  // ---- the methods ----

  method PriorClusterHadOtherNodes(site: Site, decided: Option<ClusterId>) returns (had: bool)
    ensures had == HadOtherNodes(Listed(site.world, decided), site.self.name)
  {
    var memberList, ok := site.MemberList(decided);
    if !ok {
      return false;
    }
    if |memberList| == 1 && memberList[0].name == site.self.name {
      return false;
    }
    if |memberList| == 1 && memberList[0].name != site.self.name {
      return true;
    }
    if |memberList| > 1 {
      return true;
    }
    return false;
  }

  method RemoveSelfFromCluster(site: Site, a: StopAnswers)
    modifies site`world
    ensures site.world == RemoveSelf(old(site.world), site.self, a)
  {
    var memberList, ok := site.MemberList(a.relisted);
    var memberID := "";
    for k := 0 to |memberList|
      invariant memberID == LastWithName(memberList[..k], site.self.name)
    {
      assert memberList[..k + 1][..k] == memberList[..k];
      if memberList[k].name == site.self.name {
        memberID := memberList[k].id;
      }
    }
    assert memberList[..|memberList|] == memberList;
    var removed := site.RemoveMember(a.removed, memberID);
  }

  method KillByPidFile(site: Site, unlinked: bool) returns (error: Option<Error>)
    requires site.me in site.world.hosts
    modifies site`world
    ensures error == KillOutcome(old(site.world).hosts[site.me], unlinked)
    ensures site.world == SetHost(old(site.world), site.me, Killed(old(site.world).hosts[site.me], unlinked))
  {
    var h := site.world.hosts[site.me];
    if h.pidFile.None? {
      return Some(PidFileMissing);
    }
    var parsed := Atoi(h.pidFile.value);
    if parsed.None? {
      return Some(PidFileInvalid);
    }
    var pid := parsed.value;
    if pid <= 0 || pid !in h.procs {
      return Some(KillError);
    }
    h := h.(procs := h.procs - {pid}, killed := h.killed + [pid]);
    if unlinked {
      h := h.(pidFile := None);
    }
    site.world := SetHost(site.world, site.me, h);
    return if unlinked then None else Some(PidFileRemoveError);
  }

  method WipeAndKill(site: Site, a: StopAnswers) returns (error: Option<Error>)
    requires site.me in site.world.hosts
    modifies site`world
    ensures site.world == SetHost(old(site.world), site.me, TakenDown(old(site.world).hosts[site.me], a))
    ensures error == KillOutcome(old(site.world).hosts[site.me], a.unlinked)
  {
    site.world := SetHost(site.world, site.me, Wiped(site.world.hosts[site.me], a.wiped));
    error := KillByPidFile(site, a.unlinked);
  }

  method StopNode(site: Site, a: StopAnswers) returns (error: Option<Error>)
    requires site.me in site.world.hosts
    modifies site
    ensures var r := Stop(old(site.world), site.me, site.self, a);
            site.world == r.world && error == r.error && site.slept == old(site.slept) + r.slept
  {
    if !a.configured {
      return Some(ConfigError);
    }
    var teardown := PriorClusterHadOtherNodes(site, a.decided);
    if teardown {
      RemoveSelfFromCluster(site, a);
    }
    error := WipeAndKill(site, a);
  }

  method RollBackStart(site: Site, plan: Plan, a: StopAnswers) returns (error: Error)
    requires site.me in site.world.hosts
    modifies site`world
    ensures site.world == RollBack(old(site.world), site.me, site.self, plan, a)
    ensures error == RollBackError(old(site.world).hosts[site.me], a)
  {
    if plan.ExistingCluster? {
      RemoveSelfFromCluster(site, a);
    }
    var killError := WipeAndKill(site, a);
    return if killError.Some? then killError.value else SyncError;
  }

  /** From the launch on; the pid is written only after a sync. */
  method FinishStart(site: Site, plan: Plan, pid: Pid, a: StartAnswers) returns (error: Option<Error>)
    requires site.me in site.world.hosts
    modifies site
    ensures var r := Finish(old(site.world), site.me, site.self, plan, pid, a);
            site.world == r.world && error == r.error && site.slept == old(site.slept) + r.slept
  {
    var synced := VerifySynced(site, a.selfClient, a.keys);
    if !synced {
      var e := RollBackStart(site, plan, a.rollback);
      return Some(e);
    }
    if !a.pidWritten {
      return Some(PidFileWriteError);
    }
    site.world := SetHost(site.world, site.me, site.world.hosts[site.me].(pidFile := Some(Decimal(pid))));
    return None;
  }

  method StartNode(site: Site, a: StartAnswers) returns (error: Option<Error>)
    requires site.me in site.world.hosts
    modifies site
    ensures var r := Start(old(site.world), site.me, site.self, a);
            site.world == r.world && error == r.error && site.slept == old(site.slept) + r.slept
  {
    if !a.configured {
      return Some(ConfigError);
    }
    var plan := GetInitialClusterState(site, a);
    if plan.None? {
      return Some(MemberAddError);
    }
    if a.launched.None? {
      return Some(LaunchError);
    }
    site.world := LaunchAndPublish(site.world, site.me, site.self, plan.value, a.launched.value, a);
    error := FinishStart(site, plan.value, a.launched.value, a);
  }
}
