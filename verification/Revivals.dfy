/** How a second cluster can become live although every member list was answered: two runs from the empty state. */
module Revivals {
  import opened Wrappers
  import opened Text
  import opened Fleet
  import opened Site
  import opened ClusterController
  import opened SyncController
  import opened Application
  import opened Protocol
  import opened SingleCluster
  import opened Refinement
  import Lifecycle
  import Interleavings
  import PeerUrls

  const NOTHING := Host(map[], None, None, [], [])

  /** Before anything has been started. */
  function EmptyState(d: Deployment): State
  {
    State(World(map[], map i | i in d :: NOTHING, {}), map i | i in d :: Idle)
  }

  ghost predicate Reachable(d: Deployment, s: State)
  {
    exists steps :: Run(d, EmptyState(d), steps, s)
  }

  lemma StepReachable(d: Deployment, s: State, step: Step)
    requires Reachable(d, s) && Shape(d, s) && Enabled(d, s, step)
    ensures Reachable(d, Next(d, s, step)) && Shape(d, Next(d, s, step))
  {
    var steps :| Run(d, EmptyState(d), steps, s);
    StepReaches(d, s, step);
    RunReachable(d, s, Next(d, s, step), step.node);
  }

  lemma RunReachable(d: Deployment, s: State, t: State, i: NodeId)
    requires Reachable(d, s) && Reaches(d, s, t, i)
    ensures Reachable(d, t)
  {
    var b :| OwnRun(d, s, b, t, i);
    StepsReachable(d, s, b, t);
  }

  lemma StepsReachable(d: Deployment, s: State, steps: seq<Step>, t: State)
    requires Reachable(d, s) && Shape(d, s) && Run(d, s, steps, t)
    ensures Reachable(d, t)
  {
    var before :| Run(d, EmptyState(d), before, s);
    RunConcat(d, EmptyState(d), before, s, steps, t);
  }

  // ---- a Start that founds a cluster ----

  const NO_ANSWERS := StopAnswers(true, None, None, None, true, true)

  /** No list is answered; all else goes well. */
  function Founding(c: ClusterId, pid: Pid, id: string): StartAnswers
  {
    StartAnswers(true, (k: nat) => None, None, id, Some(pid), c, true, true, (k: nat) => true, true, NO_ANSWERS)
  }

  function UpHost(h: Host, pid: Pid, c: ClusterId): Host
  {
    WithProcess(h, pid, c).(pidFile := Some(Decimal(pid)))
  }

  function Founded(w: World, i: NodeId, self: Identity, c: ClusterId, pid: Pid, id: string): World
    requires i in w.hosts
  {
    World(w.clusters[c := [Member(id, self.name, self.url)]], w.hosts[i := UpHost(w.hosts[i], pid, c)],
          w.usedIds + {id})
  }

  lemma NoListNewPlan(w: World, self: Identity, c: ClusterId, pid: Pid, id: string)
    ensures var o := InitialClusterState(w, self, Founding(c, pid, id));
            o.world == w && o.plan.Some? && o.plan.value.NewCluster?
  {
    var a := Founding(c, pid, id);
    var l := ListFrom(w, a.listed, 0);
    var answer := a.listed(l.failures);
  }

  lemma FoundingLaunch(w: World, i: NodeId, self: Identity, plan: Plan, c: ClusterId, pid: Pid, id: string)
    requires i in w.hosts && w.hosts[i].data.None? && plan.NewCluster?
    ensures LaunchAndPublish(w, i, self, plan, pid, Founding(c, pid, id)) ==
            Founded(w, i, self, c, pid, id).(hosts := w.hosts[i := WithProcess(w.hosts[i], pid, c)])
  {
    var own := [Member(id, self.name, self.url)];
    assert Named(own, self) == own;
    assert w.clusters[c := own][c := own] == w.clusters[c := own];
  }

  lemma FoundingWorld(w: World, i: NodeId, self: Identity, c: ClusterId, pid: Pid, id: string)
    requires i in w.hosts && w.hosts[i].data.None?
    ensures Start(w, i, self, Founding(c, pid, id)).world == Founded(w, i, self, c, pid, id)
  {
    var a := Founding(c, pid, id);
    NoListNewPlan(w, self, c, pid, id);
    FoundingLaunch(w, i, self, InitialClusterState(w, self, a).plan.value, c, pid, id);
    VerdictExact(true, a.keys, Verdict(true, 0));
    assert w.hosts[i := WithProcess(w.hosts[i], pid, c)][i := UpHost(w.hosts[i], pid, c)] ==
           w.hosts[i := UpHost(w.hosts[i], pid, c)];
  }

  lemma FoundingRealistic(d: Deployment, w: World, i: NodeId, c: ClusterId, pid: Pid, id: string)
    requires i in d && i in w.hosts && w.hosts[i].data.None? && w.hosts[i].procs == map[]
    requires c !in w.clusters && NewId(w, id)
    ensures Realistic(d, w, i, Founding(c, pid, id)) && RollbackServed(w, i, d[i], Founding(c, pid, id))
  {
    assert forall k :: Founding(c, pid, id).listed(k) == None;
  }

  lemma FoundReaches(d: Deployment, s: State, i: NodeId, c: ClusterId, pid: Pid, id: string)
    requires Shape(d, s) && i in d && s.phase[i].Idle?
    requires s.world.hosts[i].data.None? && s.world.hosts[i].procs == map[]
    requires c !in s.world.clusters && NewId(s.world, id)
    ensures Reaches(d, s, To(s, i, Founded(s.world, i, d[i], c, pid, id), Idle), i)
  {
    FoundingWorld(s.world, i, d[i], c, pid, id);
    FoundingRealistic(d, s.world, i, c, pid, id);
    StartReaches(d, s, i, Founding(c, pid, id));
  }

  /** A node with no data and no process can found a cluster at any time. */
  lemma FoundRun(d: Deployment, s: State, i: NodeId, c: ClusterId, pid: Pid, id: string)
    requires Reachable(d, s) && Shape(d, s) && i in d && s.phase[i].Idle?
    requires s.world.hosts[i].data.None? && s.world.hosts[i].procs == map[]
    requires c !in s.world.clusters && NewId(s.world, id)
    ensures var t := To(s, i, Founded(s.world, i, d[i], c, pid, id), Idle);
            Reachable(d, t) && Shape(d, t)
  {
    FoundReaches(d, s, i, c, pid, id);
    RunReachable(d, s, To(s, i, Founded(s.world, i, d[i], c, pid, id), Idle), i);
  }

  // ---- hosts and live clusters ----

  ghost predicate ProcsAre(d: Deployment, s: State, live: map<NodeId, ClusterId>)
    requires Shape(d, s)
  {
    forall i :: i in d ==>
      if i in live then s.world.hosts[i].procs.Keys != {} && HostProcs(s.world.hosts[i], live[i])
      else s.world.hosts[i].procs == map[]
  }

  predicate HostProcs(h: Host, c: ClusterId) { forall p :: p in h.procs ==> h.procs[p] == c }

  lemma LiveExactly(d: Deployment, s: State, live: map<NodeId, ClusterId>)
    requires Shape(d, s) && ProcsAre(d, s, live) && live.Keys <= d.Keys
    ensures forall c :: Live(s.world, c) <==> c in live.Values
  {
    forall c ensures Live(s.world, c) <==> c in live.Values {
      if c in live.Values {
        var i :| i in live && live[i] == c;
        var p :| p in s.world.hosts[i].procs;
        assert RunsIn(s.world.hosts[i], c);
      }
      if Live(s.world, c) {
        var i :| i in s.world.hosts && RunsIn(s.world.hosts[i], c);
      }
    }
  }

  lemma EmptyReachable(d: Deployment)
    ensures Shape(d, EmptyState(d)) && Reachable(d, EmptyState(d))
  {
    assert Run(d, EmptyState(d), [], EmptyState(d));
  }

  /** Node `j` founds cluster 1 and its etcd exits. */
  function AfterOutage(d: Deployment, j: NodeId, x: string): State
    requires j in d
  {
    var s := EmptyState(d);
    var w := Founded(s.world, j, d[j], 1, 1, x);
    State(SetHost(w, j, Exited(w.hosts[j], 1)), s.phase)
  }

  lemma OutageReachable(d: Deployment, j: NodeId, x: string)
    requires j in d && x != ""
    ensures var s := AfterOutage(d, j, x);
            Shape(d, s) && Reachable(d, s) && ProcsAre(d, s, map[])
  {
    var s := EmptyState(d);
    EmptyReachable(d);
    FoundRun(d, s, j, 1, 1, x);
    var s1 := To(s, j, Founded(s.world, j, d[j], 1, 1, x), Idle);
    assert s1.phase == s.phase;
    StepReachable(d, s1, Exit(j, 1));
    assert Next(d, s1, Exit(j, 1)) == AfterOutage(d, j, x);
  }

  // ---- the data directory of a dead cluster ----

  /** Then node `i`, which cannot reach it, founds cluster 0. */
  function BeforeReturn(d: Deployment, i: NodeId, j: NodeId, x: string, y: string): State
    requires i in d && j in d
  {
    var s := AfterOutage(d, j, x);
    To(s, i, Founded(s.world, i, d[i], 0, 1, y), Idle)
  }

  lemma BeforeReturnReachable(d: Deployment, i: NodeId, j: NodeId, x: string, y: string)
    requires i in d && j in d && i != j && x != "" && y != "" && x != y
    ensures Shape(d, BeforeReturn(d, i, j, x, y)) && Reachable(d, BeforeReturn(d, i, j, x, y))
  {
    OutageReachable(d, j, x);
    FoundRun(d, AfterOutage(d, j, x), i, 0, 1, y);
  }

  lemma BeforeReturnIs(d: Deployment, i: NodeId, j: NodeId, x: string, y: string)
    requires i in d && j in d && i != j
    ensures var s := BeforeReturn(d, i, j, x, y);
            && Shape(d, s) && ProcsAre(d, s, map[i := 0])
            && s.phase[i].Idle? && s.phase[j].Idle? && s.world.hosts[j].data == Some(1) && s.world.usedIds == {x, y}
            && s.world.clusters == map[1 := [Member(x, d[j].name, d[j].url)], 0 := [Member(y, d[i].name, d[i].url)]]
  {
    var s := BeforeReturn(d, i, j, x, y);
    assert s.world.hosts[i].procs == map[1 := 0] && s.world.hosts[j].procs == map[];
  }

  /** Every call is served by cluster 0. */
  function Joining(pid: Pid, id: string): StartAnswers
  {
    StartAnswers(true, (k: nat) => Some(0), Some(0), id, Some(pid), 2, true, true, (k: nat) => true, true, NO_ANSWERS)
  }

  lemma JoiningPlan(w: World, self: Identity, pid: Pid, id: string)
    requires 0 in w.clusters && w.clusters[0] != []
    ensures var o := InitialClusterState(w, self, Joining(pid, id));
            o.plan.Some? && o.plan.value.ExistingCluster?
  {
    var a := Joining(pid, id);
    var l := ListFrom(w, a.listed, 0);
    var first, last := a.listed(0), a.listed(l.failures);
    assert l == ListResult(0, w.clusters[0], Some(0));
  }

  lemma JoiningHosts(w: World, i: NodeId, self: Identity, pid: Pid, id: string, c: ClusterId)
    requires i in w.hosts && w.hosts[i].data == Some(c) && 0 in w.clusters && w.clusters[0] != []
    ensures Start(w, i, self, Joining(pid, id)).world.hosts == w.hosts[i := UpHost(w.hosts[i], pid, c)]
  {
    var a := Joining(pid, id);
    JoiningPlan(w, self, pid, id);
    VerdictExact(true, a.keys, Verdict(true, 0));
    Lifecycle.StartActsAsEvent(w, i, self, a);
  }

  lemma ReturnReachable(d: Deployment, s: State, j: NodeId, z: string)
    requires Shape(d, s) && Reachable(d, s) && j in d && s.phase[j].Idle? && NewId(s.world, z)
    requires s.world.clusters.Keys == {0, 1} && Live(s.world, 0)
    requires s.world.hosts[j].data == Some(1) && s.world.hosts[j].procs == map[]
    ensures Reachable(d, To(s, j, Start(s.world, j, d[j], Joining(2, z)).world, Idle))
  {
    var a := Joining(2, z);
    assert Realistic(d, s.world, j, a);
    StartReaches(d, s, j, a);
    RunReachable(d, s, To(s, j, Start(s.world, j, d[j], a).world, Idle), j);
  }

  lemma ReturnLives(d: Deployment, s: State, t: State, i: NodeId, j: NodeId, pid: Pid)
    requires Shape(d, s) && Shape(d, t) && i in d && j in d && i != j && ProcsAre(d, s, map[i := 0])
    requires t.world.hosts == s.world.hosts[j := UpHost(s.world.hosts[j], pid, 1)]
    ensures Live(s.world, 0) && !Live(s.world, 1) && Live(t.world, 0) && Live(t.world, 1)
  {
    LiveExactly(d, s, map[i := 0]);
    assert map[i := 0][i] in map[i := 0].Values;
    var p :| p in s.world.hosts[i].procs;
    assert t.world.hosts[i].procs[p] == 0 && RunsIn(t.world.hosts[i], 0);
    assert t.world.hosts[j].procs[pid] == 1 && RunsIn(t.world.hosts[j], 1);
  }

  /** Cluster 0 runs on node `i` alone; node `j` is down with the data of cluster 1. */
  ghost predicate Returning(d: Deployment, s: State, i: NodeId, j: NodeId)
  {
    && Shape(d, s) && Reachable(d, s) && i in d && j in d && i != j && ProcsAre(d, s, map[i := 0])
    && s.phase[j].Idle? && s.world.hosts[j].data == Some(1)
    && s.world.clusters.Keys == {0, 1} && s.world.clusters[0] != []
  }

  lemma ReturnRevives(d: Deployment, s: State, i: NodeId, j: NodeId, z: string)
    requires Returning(d, s, i, j) && NewId(s.world, z)
    ensures var t := To(s, j, Start(s.world, j, d[j], Joining(2, z)).world, Idle);
            Reachable(d, t) && Live(s.world, 0) && !Live(s.world, 1) && Live(t.world, 0) && Live(t.world, 1)
  {
    var t := To(s, j, Start(s.world, j, d[j], Joining(2, z)).world, Idle);
    JoiningHosts(s.world, j, d[j], 2, z, 1);
    ReturnLives(d, s, t, i, j, 2);
    ReturnReachable(d, s, j, z);
  }

  lemma ReturningReachable(d: Deployment, i: NodeId, j: NodeId, x: string, y: string)
    requires i in d && j in d && i != j && x != "" && y != "" && x != y
    ensures Returning(d, BeforeReturn(d, i, j, x, y), i, j)
    ensures BeforeReturn(d, i, j, x, y).world.usedIds == {x, y}
  {
    BeforeReturnReachable(d, i, j, x, y);
    BeforeReturnIs(d, i, j, x, y);
  }

  /** A Start whose list was answered and not empty, in a state reached from the empty one, makes a second cluster
      live: that of its data directory, which had died. */
  lemma DataDirectoryRevives(d: Deployment, i: NodeId, j: NodeId, x: string, y: string, z: string)
    returns (s: State, a: StartAnswers, t: State)
    requires i in d && j in d && i != j && "" !in {x, y, z} && x != y && x != z && y != z
    ensures Reachable(d, s) && Live(s.world, 0) && !Live(s.world, 1)
    ensures j in s.world.hosts && t == To(s, j, Start(s.world, j, d[j], a).world, Idle) && Reachable(d, t)
    ensures InitialClusterState(s.world, d[j], a).plan.Some? &&
            InitialClusterState(s.world, d[j], a).plan.value.ExistingCluster?
    ensures Live(t.world, 0) && Live(t.world, 1)
  {
    s := BeforeReturn(d, i, j, x, y);
    a := Joining(2, z);
    t := To(s, j, Start(s.world, j, d[j], a).world, Idle);
    ReturningReachable(d, i, j, x, y);
    JoiningPlan(s.world, d[j], 2, z);
    ReturnRevives(d, s, i, j, z);
  }

  // ---- the cluster of an old list ----

  /** Node `i` founds cluster 0, node `j` lists it and adds itself, and then the etcd of `i` exits. */
  function AfterOldList(d: Deployment, i: NodeId, j: NodeId, x: string, y: string): State
    requires i in d && j in d
  {
    var s := EmptyState(d);
    var w := Founded(s.world, i, d[i], 0, 1, x);
    var prior := [Member(x, d[i].name, d[i].url)];
    var w1 := SetMembers(w, 0, prior + [Member(y, "", d[j].url)]).(usedIds := w.usedIds + {y});
    State(SetHost(w1, i, Exited(w1.hosts[i], 1)), s.phase[j := Launching(PlanFor(prior, Some(0), d[j]))])
  }

  function FirstUp(d: Deployment, i: NodeId, x: string): State
    requires i in d
  {
    State(Founded(EmptyState(d).world, i, d[i], 0, 1, x), EmptyState(d).phase)
  }

  lemma FoundedIs(d: Deployment, i: NodeId, x: string)
    requires i in d && x != ""
    ensures var s := FirstUp(d, i, x);
            Shape(d, s) && Reachable(d, s) && ProcsAre(d, s, map[i := 0]) && Live(s.world, 0)
  {
    var s := EmptyState(d);
    EmptyReachable(d);
    FoundRun(d, s, i, 0, 1, x);
    assert To(s, i, Founded(s.world, i, d[i], 0, 1, x), Idle) == FirstUp(d, i, x);
    var h := FirstUp(d, i, x).world.hosts[i];
    assert h.procs[1] == 0 && RunsIn(h, 0);
  }

  /** The list and the add of a node that is not a member. */
  lemma ListAndAdd(d: Deployment, s: State, j: NodeId, prior: seq<Member>, y: string)
    requires Shape(d, s) && Reachable(d, s) && j in d && s.phase[j].Idle? && NewId(s.world, y)
    requires Live(s.world, 0) && 0 in s.world.clusters && s.world.clusters[0] == prior
    requires prior != [] && !HasUrl(prior, d[j].url)
    ensures var w := SetMembers(s.world, 0, prior + [Member(y, "", d[j].url)]).(usedIds := s.world.usedIds + {y});
            var t := To(s, j, w, Launching(PlanFor(prior, Some(0), d[j])));
            Shape(d, t) && Reachable(d, t)
  {
    BeginStep(d, s, j);
    StepReachable(d, s, BeginStart(j));
    ListStep(d, s, j, s.world, 0, Some(0));
    var s1 := To(s, j, s.world, Phase.Listing(0));
    StepReachable(d, s1, List(j, Some(0)));
    var s2 := To(s, j, s.world, Adding(prior, 0));
    AddFromCluster(d, s, j, prior, y);
    StepReachable(d, s2, Add(j, Some(0), y));
  }

  lemma AddFromCluster(d: Deployment, s: State, j: NodeId, prior: seq<Member>, y: string)
    requires Shape(d, s) && j in d && NewId(s.world, y)
    requires Live(s.world, 0) && 0 in s.world.clusters && s.world.clusters[0] == prior && prior != []
    ensures var s0 := To(s, j, s.world, Adding(prior, 0));
            var w := SetMembers(s.world, 0, prior + [Member(y, "", d[j].url)]).(usedIds := s.world.usedIds + {y});
            && Enabled(d, s0, Add(j, Some(0), y))
            && Next(d, s0, Add(j, Some(0), y)) == To(s, j, w, Launching(PlanFor(prior, Some(0), d[j])))
  {
    var w := SetMembers(s.world, 0, prior + [Member(y, "", d[j].url)]).(usedIds := s.world.usedIds + {y});
    ToTwice(s, j, s.world, Adding(prior, 0), w, Launching(PlanFor(prior, Some(0), d[j])));
  }

  lemma OldListReachable(d: Deployment, i: NodeId, j: NodeId, x: string, y: string)
    requires Distinct(d) && i in d && j in d && i != j && x != "" && y != "" && x != y
    ensures Shape(d, AfterOldList(d, i, j, x, y)) && Reachable(d, AfterOldList(d, i, j, x, y))
  {
    var s := FirstUp(d, i, x);
    var prior := [Member(x, d[i].name, d[i].url)];
    FoundedIs(d, i, x);
    assert !HasUrl(prior, d[j].url);
    ListAndAdd(d, s, j, prior, y);
    var w := SetMembers(s.world, 0, prior + [Member(y, "", d[j].url)]).(usedIds := s.world.usedIds + {y});
    var s1 := To(s, j, w, Launching(PlanFor(prior, Some(0), d[j])));
    StepReachable(d, s1, Exit(i, 1));
    assert Next(d, s1, Exit(i, 1)) == AfterOldList(d, i, j, x, y);
  }

  /** Node `j` is about to launch by a list of the dead cluster 0, and cluster 1 runs on node `k` alone. */
  ghost predicate OldPlan(d: Deployment, s: State, j: NodeId, k: NodeId)
  {
    && Shape(d, s) && Reachable(d, s) && j in d && k in d && j != k && ProcsAre(d, s, map[k := 1])
    && s.phase[j].Launching? && s.phase[j].plan.ExistingCluster? && s.phase[j].plan.cluster == 0
    && s.world.hosts[j].data.None?
  }

  /** Cluster 0 has died, node `j` is about to launch by its list, and node `k` has seen nothing. */
  ghost predicate OldListed(d: Deployment, s: State, j: NodeId, k: NodeId)
  {
    && Shape(d, s) && j in d && k in d && j != k && ProcsAre(d, s, map[])
    && s.phase[j].Launching? && s.phase[j].plan.ExistingCluster? && s.phase[j].plan.cluster == 0
    && s.world.hosts[j].data.None? && s.world.hosts[k].data.None? && s.phase[k].Idle? && 1 !in s.world.clusters
  }

  lemma OldListIs(d: Deployment, i: NodeId, j: NodeId, k: NodeId, x: string, y: string)
    requires i in d && j in d && k in d && i != j && i != k && j != k
    ensures OldListed(d, AfterOldList(d, i, j, x, y), j, k)
    ensures AfterOldList(d, i, j, x, y).world.usedIds == {x, y}
  {
  }

  lemma FoundingBeside(d: Deployment, s: State, j: NodeId, k: NodeId, z: string)
    requires OldListed(d, s, j, k) && Reachable(d, s) && NewId(s.world, z)
    ensures OldPlan(d, To(s, k, Founded(s.world, k, d[k], 1, 1, z), Idle), j, k)
  {
    FoundRun(d, s, k, 1, 1, z);
    ProcsAfterFounding(d, s, To(s, k, Founded(s.world, k, d[k], 1, 1, z), Idle), k);
  }

  lemma ProcsAfterFounding(d: Deployment, s: State, t: State, k: NodeId)
    requires Shape(d, s) && Shape(d, t) && k in d && ProcsAre(d, s, map[])
    requires t.world.hosts == s.world.hosts[k := UpHost(s.world.hosts[k], 1, 1)]
    ensures ProcsAre(d, t, map[k := 1])
  {
    assert 1 in t.world.hosts[k].procs.Keys;
    forall i | i in d && i != k ensures t.world.hosts[i].procs == map[] {
      assert t.world.hosts[i] == s.world.hosts[i];
    }
  }

  lemma OldPlanRevives(d: Deployment, s: State, j: NodeId, k: NodeId) returns (step: Step)
    requires OldPlan(d, s, j, k)
    ensures Enabled(d, s, step) && step.Launch? && step.node == j
    ensures !Live(s.world, 0) && Live(s.world, 1)
    ensures Live(Next(d, s, step).world, 0) && Live(Next(d, s, step).world, 1)
  {
    step := Step.Launch(j, Some(1), 2, "");
    LiveExactly(d, s, map[k := 1]);
    assert map[k := 1][k] in map[k := 1].Values;
    LaunchRevivesExactly(d, s, step, 0);
    LaunchRevivesExactly(d, s, step, 1);
  }

  /** The other way: a launch by an old list makes its dead cluster live again beside a newer one. */
  lemma OldListRevives(d: Deployment, i: NodeId, j: NodeId, k: NodeId, x: string, y: string, z: string)
    returns (s: State, step: Step)
    requires Distinct(d) && i in d && j in d && k in d && i != j && i != k && j != k
    requires "" !in {x, y, z} && x != y && x != z && y != z
    ensures Shape(d, s) && Reachable(d, s) && Enabled(d, s, step) && step.Launch?
    ensures s.phase[step.node].plan.ExistingCluster? && !Live(s.world, 0) && Live(s.world, 1)
    ensures Live(Next(d, s, step).world, 0) && Live(Next(d, s, step).world, 1)
  {
    var s0 := AfterOldList(d, i, j, x, y);
    OldListIs(d, i, j, k, x, y);
    OldListReachable(d, i, j, x, y);
    FoundingBeside(d, s0, j, k, z);
    s := To(s0, k, Founded(s0.world, k, d[k], 1, 1, z), Idle);
    step := OldPlanRevives(d, s, j, k);
  }

  // ---- an add to another cluster than the list's ----

  lemma JoiningClusters(w: World, j: NodeId, self: Identity, pid: Pid, id: string)
    requires j in w.hosts && w.hosts[j].data == Some(1) && w.clusters.Keys == {0, 1}
    requires MustAdd(w.clusters[0], self) && Named(w.clusters[1], self) == w.clusters[1]
    ensures var v := Start(w, j, self, Joining(pid, id)).world;
            && v.clusters == w.clusters[0 := w.clusters[0] + [Member(id, "", self.url)]]
            && v.usedIds == w.usedIds + {id}
  {
    var a := Joining(pid, id);
    JoiningState(w, self, pid, id);
    VerdictExact(true, a.keys, Verdict(true, 0));
    var w1 := w.clusters[0 := w.clusters[0] + [Member(id, "", self.url)]];
    assert w1[1 := w.clusters[1]] == w1;
  }

  lemma JoiningState(w: World, self: Identity, pid: Pid, id: string)
    requires 0 in w.clusters && MustAdd(w.clusters[0], self)
    ensures var o := InitialClusterState(w, self, Joining(pid, id));
            && o.plan.Some? && o.plan.value.ExistingCluster?
            && o.world == SetMembers(w, 0, w.clusters[0] + [Member(id, "", self.url)]).(usedIds := w.usedIds + {id})
  {
    var a := Joining(pid, id);
    var l := ListFrom(w, a.listed, 0);
    var first, last := a.listed(0), a.listed(l.failures);
    assert l == ListResult(0, w.clusters[0], Some(0));
  }

  /** Cluster 1 does not list node `i`, and cluster 0 does. */
  ghost predicate TwoLists(w: World, self: Identity)
  {
    && w.clusters.Keys == {0, 1} && PeerUrls.AllUniqueUrls(w)
    && HasUrl(w.clusters[0], self.url) && MustAdd(w.clusters[1], self)
  }

  /** Both run, and node `i` is idle. */
  ghost predicate TwoLive(d: Deployment, s: State, i: NodeId)
  {
    && Shape(d, s) && Reachable(d, s) && i in d && s.phase[i].Idle?
    && Live(s.world, 0) && Live(s.world, 1) && TwoLists(s.world, d[i])
  }

  lemma ListsOf(w: World, m: Member, n: Member, o: Member, self: Identity)
    requires w.clusters == map[0 := [n] + [o], 1 := [m]]
    requires n.peerUrl == self.url && n.peerUrl != o.peerUrl && m.peerUrl != self.url
    ensures TwoLists(w, self)
  {
    assert w.clusters[0] == [n, o];
    assert n in w.clusters[0];
  }

  lemma ReturnedClusters(w: World, j: NodeId, self: Identity, z: string, m: Member, n: Member)
    requires j in w.hosts && w.hosts[j].data == Some(1) && w.clusters == map[1 := [m], 0 := [n]]
    requires m.name == self.name && n.peerUrl != self.url
    ensures var v := Start(w, j, self, Joining(2, z)).world;
            v.clusters == map[0 := [n] + [Member(z, "", self.url)], 1 := [m]] && v.usedIds == w.usedIds + {z}
  {
    assert Named([m], self) == [m];
    assert !HasUrl([n], self.url);
    JoiningClusters(w, j, self, 2, z);
  }

  lemma TwoLiveIn(d: Deployment, s: State, v: World, i: NodeId, j: NodeId)
    requires Shape(d, s) && i in d && j in d && i != j && s.phase[i].Idle? && v.hosts.Keys == d.Keys
    requires Reachable(d, To(s, j, v, Idle)) && Live(v, 0) && Live(v, 1) && TwoLists(v, d[i])
    ensures TwoLive(d, To(s, j, v, Idle), i)
  {
  }

  lemma ReturnFacts(d: Deployment, s: State, i: NodeId, j: NodeId, z: string)
    requires Returning(d, s, i, j) && NewId(s.world, z)
    ensures var v := Start(s.world, j, d[j], Joining(2, z)).world;
            v.hosts.Keys == d.Keys && Reachable(d, To(s, j, v, Idle)) && Live(v, 0) && Live(v, 1)
  {
    ReturnRevives(d, s, i, j, z);
    JoiningHosts(s.world, j, d[j], 2, z, 1);
  }

  lemma TwoLiveReachable(d: Deployment, i: NodeId, j: NodeId, x: string, y: string, z: string) returns (s: State)
    requires Distinct(d) && i in d && j in d && i != j && "" !in {x, y, z} && x != y && x != z && y != z
    ensures TwoLive(d, s, i) && s.world.usedIds == {x, y, z}
  {
    var s0 := BeforeReturn(d, i, j, x, y);
    var m, n := Member(x, d[j].name, d[j].url), Member(y, d[i].name, d[i].url);
    ReturningReachable(d, i, j, x, y);
    BeforeReturnIs(d, i, j, x, y);
    s := ReturnTo(d, s0, i, j, z, m, n);
    assert s.world.usedIds == {x, y} + {z};
  }

  lemma ReturnTo(d: Deployment, s0: State, i: NodeId, j: NodeId, z: string, m: Member, n: Member) returns (s: State)
    requires Distinct(d) && Returning(d, s0, i, j) && NewId(s0.world, z) && s0.phase[i].Idle?
    requires s0.world.clusters == map[1 := [m], 0 := [n]]
    requires m.name == d[j].name && m.peerUrl == d[j].url && n.peerUrl == d[i].url
    ensures TwoLive(d, s, i) && s.world.usedIds == s0.world.usedIds + {z}
  {
    var v := Start(s0.world, j, d[j], Joining(2, z)).world;
    ReturnedClusters(s0.world, j, d[j], z, m, n);
    ListsOf(v, m, n, Member(z, "", d[j].url), d[i]);
    ReturnFacts(d, s0, i, j, z);
    TwoLiveIn(d, s0, v, i, j);
    s := To(s0, j, v, Idle);
  }

  /** From the empty state, with nothing but Starts and an etcd that exits, a node can list one cluster and be added to
      another, where it is a member already: two entries share a URL. */
  lemma StrayAddReachable(d: Deployment, i: NodeId, j: NodeId, x: string, y: string, z: string, u: string)
    returns (s: State, t: State)
    requires Distinct(d) && i in d && j in d && i != j && "" !in {x, y, z, u}
    requires x != y && x != z && y != z && u !in {x, y, z}
    ensures Reachable(d, s) && PeerUrls.AllUniqueUrls(s.world)
    ensures Reachable(d, t) && !PeerUrls.AllUniqueUrls(t.world)
  {
    var s0 := TwoLiveReachable(d, i, j, x, y, z);
    s, t := StrayAddFrom(d, s0, i, u);
  }

  lemma StrayAddFrom(d: Deployment, s0: State, i: NodeId, u: string) returns (s: State, t: State)
    requires TwoLive(d, s0, i) && NewId(s0.world, u)
    ensures Reachable(d, s) && PeerUrls.AllUniqueUrls(s.world)
    ensures Reachable(d, t) && !PeerUrls.AllUniqueUrls(t.world)
  {
    s := To(s0, i, s0.world, Phase.Listing(0));
    BeginStep(d, s0, i);
    StepReachable(d, s0, BeginStart(i));
    Interleavings.StrayAddDuplicates(d, s, i, 1, 0, u);
    t :| Run(d, s, [List(i, Some(1)), Add(i, Some(0), u)], t) && !PeerUrls.AllUniqueUrls(t.world);
    StepsReachable(d, s, [List(i, Some(1)), Add(i, Some(0), u)], t);
  }
}
