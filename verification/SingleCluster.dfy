/** When a second cluster appears, and when it cannot. */
module SingleCluster {
  import opened Wrappers
  import opened Fleet
  import opened ClusterController
  import opened Protocol
  import opened Membership
  import opened PeerUrls

  // ---- clusters are created and revived by launches only ----

  /** An etcd told it is new, with no data directory, founds a cluster. */
  predicate Founds(s: State, step: Step)
  {
    && step.Launch? && step.launched.Some?
    && step.node in s.phase && s.phase[step.node].Launching? && step.node in s.world.hosts
    && Bootstraps(s.world.hosts[step.node], s.phase[step.node].plan)
  }

  lemma StepCreates(d: Deployment, s: State, step: Step)
    requires Shape(d, s) && Enabled(d, s, step)
    ensures Next(d, s, step).world.clusters.Keys ==
            s.world.clusters.Keys + if Founds(s, step) then {step.created} else {}
  {
  }

  /** How many clusters a run founds. */
  ghost function Founded(d: Deployment, s: State, steps: seq<Step>): nat
    requires Shape(d, s)
    decreases |steps|
  {
    if steps == [] || !Enabled(d, s, steps[0]) then 0
    else (if Founds(s, steps[0]) then 1 else 0) + Founded(d, Next(d, s, steps[0]), steps[1..])
  }

  /** Over any interleaving, there are as many new clusters as launches that founded one. */
  lemma {:induction false} RunFounds(d: Deployment, s: State, steps: seq<Step>, t: State)
    requires Shape(d, s) && Run(d, s, steps, t)
    ensures |t.world.clusters.Keys| == |s.world.clusters.Keys| + Founded(d, s, steps)
    decreases |steps|
  {
    if steps != [] {
      var s1 := Next(d, s, steps[0]);
      StepCreates(d, s, steps[0]);
      assert Founds(s, steps[0]) ==> steps[0].created !in s.world.clusters.Keys;
      RunFounds(d, s1, steps[1..], t);
    }
  }

  /** The plan is "new" exactly when the list was empty, or failed for the last time. */
  lemma NewExactlyOnEmptyList(d: Deployment, s: State, step: Step)
    requires Shape(d, s) && Enabled(d, s, step) && step.List?
    ensures var p := Next(d, s, step).phase[step.node];
            p.Launching? && p.plan.NewCluster? <==> Listed(s.world, step.served) == Some([]) || FailsLastTry(s, step)
  {
  }

  predicate FailsLastTry(s: State, step: Step)
  {
    && step.List? && step.served.None?
    && step.node in s.phase && s.phase[step.node].Listing?
    && s.phase[step.node].failures + 1 >= MEMBER_LIST_TRIES
  }

  lemma HostsLive(w: World, v: World, i: NodeId, e: ClusterId)
    requires i in w.hosts && i in v.hosts && v.hosts == w.hosts[i := v.hosts[i]]
    ensures RunsIn(v.hosts[i], e) ==> Live(v, e)
    ensures Live(v, e) ==> Live(w, e) || RunsIn(v.hosts[i], e)
    ensures Live(w, e) && !RunsIn(w.hosts[i], e) ==> Live(v, e)
  {
    if Live(w, e) && !RunsIn(w.hosts[i], e) {
      var j :| j in w.hosts && RunsIn(w.hosts[j], e);
      assert v.hosts[j] == w.hosts[j];
    }
  }

  lemma LaunchedRuns(h: Host, pid: Pid, c: ClusterId, e: ClusterId)
    requires pid !in h.procs
    ensures RunsIn(WithProcess(h, pid, c), e) <==> RunsIn(h, e) || e == c
  {
    var g := WithProcess(h, pid, c);
    assert g.procs[pid] == c;
    forall p | p in h.procs ensures g.procs[p] == h.procs[p] {}
  }

  /** A launch makes exactly its target live: the cluster of the data directory, else the listed one,
      else a founded one. */
  lemma LaunchRevivesExactly(d: Deployment, s: State, step: Step, e: ClusterId)
    requires Shape(d, s) && Enabled(d, s, step) && step.Launch? && step.launched.Some?
    ensures Live(Next(d, s, step).world, e)
            <==> Live(s.world, e)
                 || e == Target(s.world.hosts[step.node], s.phase[step.node].plan, step.created)
  {
    var i, h := step.node, s.world.hosts[step.node];
    var c := Target(h, s.phase[i].plan, step.created);
    var v := Next(d, s, step).world;
    assert v.hosts[i] == WithProcess(h, step.launched.value, c);
    LaunchedRuns(h, step.launched.value, c, e);
    HostsLive(s.world, v, i, e);
    if RunsIn(h, e) { assert RunsIn(v.hosts[i], e); }
  }

  /** No other step adds a process. */
  lemma OthersAddNoProcess(d: Deployment, s: State, step: Step)
    requires Shape(d, s) && Enabled(d, s, step) && !(step.Launch? && step.launched.Some?)
    ensures var h, g := s.world.hosts[step.node], Next(d, s, step).world.hosts[step.node];
            (forall p :: p in g.procs ==> p in h.procs && g.procs[p] == h.procs[p]) && g.data in [None, h.data]
  {
  }

  lemma OtherNodesUntouched(d: Deployment, s: State, step: Step)
    requires Shape(d, s) && Enabled(d, s, step)
    ensures var t := Next(d, s, step);
            && (forall j :: j in d && j != step.node ==>
                  t.world.hosts[j] == s.world.hosts[j] && t.phase[j] == s.phase[j])
            && (step.Publish? ==> t.world.hosts == s.world.hosts && t.phase == s.phase)
  {
  }

  /** No other step makes a cluster live. */
  lemma OthersReviveNothing(d: Deployment, s: State, step: Step, e: ClusterId)
    requires Shape(d, s) && Enabled(d, s, step) && !(step.Launch? && step.launched.Some?)
    requires Live(Next(d, s, step).world, e)
    ensures Live(s.world, e)
  {
    OthersAddNoProcess(d, s, step);
    OtherNodesUntouched(d, s, step);
    var v := Next(d, s, step).world;
    var i :| i in v.hosts && RunsIn(v.hosts[i], e);
    var p :| p in v.hosts[i].procs && v.hosts[i].procs[p] == e;
    assert s.world.hosts[i].procs[p] == e;
  }

  // ---- the number of live clusters ----

  ghost function LiveClusters(w: World): set<ClusterId>
  {
    set i, p | i in w.hosts && p in w.hosts[i].procs :: w.hosts[i].procs[p]
  }

  lemma LiveClustersAre(w: World)
    ensures forall c :: c in LiveClusters(w) <==> Live(w, c)
  {
    forall c | Live(w, c) ensures c in LiveClusters(w) {
      var i :| i in w.hosts && RunsIn(w.hosts[i], c);
      var p :| p in w.hosts[i].procs && w.hosts[i].procs[p] == c;
    }
    forall c | c in LiveClusters(w) ensures Live(w, c) {
      var i, p :| i in w.hosts && p in w.hosts[i].procs && w.hosts[i].procs[p] == c;
      assert RunsIn(w.hosts[i], c);
    }
  }

  predicate Launches(s: State, step: Step)
  {
    step.Launch? && step.launched.Some? && step.node in s.world.hosts && step.node in s.phase &&
    s.phase[step.node].Launching?
  }

  function TargetOf(s: State, step: Step): ClusterId
    requires Launches(s, step)
  {
    Target(s.world.hosts[step.node], s.phase[step.node].plan, step.created)
  }

  /** The launch is into a cluster of which no process is alive. */
  ghost predicate Revives(s: State, step: Step)
  {
    Launches(s, step) && !Live(s.world, TargetOf(s, step))
  }

  /** A launch adds one live cluster exactly if its target was not live, and no other step adds any. */
  lemma LiveGrowsExactly(d: Deployment, s: State, step: Step)
    requires Shape(d, s) && Enabled(d, s, step)
    ensures var before, after := LiveClusters(s.world), LiveClusters(Next(d, s, step).world);
            && (Launches(s, step) ==> |after| == |before| + if Revives(s, step) then 1 else 0)
            && (!Launches(s, step) ==> after <= before && |after| <= |before|)
  {
    var t := Next(d, s, step);
    var before, after := LiveClusters(s.world), LiveClusters(t.world);
    LiveClustersAre(s.world);
    LiveClustersAre(t.world);
    if Launches(s, step) {
      forall c ensures c in after <==> c in before || c == TargetOf(s, step) { LaunchRevivesExactly(d, s, step, c); }
      OneMore(before, TargetOf(s, step), after);
    } else {
      forall c | c in after ensures c in before { OthersReviveNothing(d, s, step, c); }
      SubsetCount(after, before);
    }
  }

  lemma OneMore(before: set<ClusterId>, c: ClusterId, after: set<ClusterId>)
    requires forall e :: e in after <==> e in before || e == c
    ensures |after| == |before| + if c in before then 0 else 1
  {
    assert after == before + {c};
    if c in before { assert after == before; }
  }

  lemma SubsetCount(a: set<ClusterId>, b: set<ClusterId>)
    requires a <= b
    ensures |a| <= |b|
  {
    assert b == a + (b - a);
  }

  /** A launch told "existing" adds a live cluster exactly if it returns to the dead cluster of its data directory or,
      without data, joins by a list whose cluster has died since. */
  lemma ExistingRevivesExactly(d: Deployment, s: State, step: Step)
    requires Shape(d, s) && Enabled(d, s, step) && Launches(s, step) && s.phase[step.node].plan.ExistingCluster?
    ensures var h, p := s.world.hosts[step.node], s.phase[step.node].plan;
            |LiveClusters(Next(d, s, step).world)| > |LiveClusters(s.world)| <==>
            (if h.data.Some? then !Live(s.world, h.data.value) else !Live(s.world, p.cluster))
  {
    LiveGrowsExactly(d, s, step);
  }

  /** How many launches of a run are into dead or new clusters. */
  ghost function Revivals(d: Deployment, s: State, steps: seq<Step>): nat
    requires Shape(d, s)
    decreases |steps|
  {
    if steps == [] || !Enabled(d, s, steps[0]) then 0
    else (if Revives(s, steps[0]) then 1 else 0) + Revivals(d, Next(d, s, steps[0]), steps[1..])
  }

  /** Over any interleaving the number of live clusters grows by at most these launches. */
  lemma {:induction false} RunRevives(d: Deployment, s: State, steps: seq<Step>, t: State)
    requires Shape(d, s) && Run(d, s, steps, t)
    ensures |LiveClusters(t.world)| <= |LiveClusters(s.world)| + Revivals(d, s, steps)
    decreases |steps|
  {
    if steps != [] {
      LiveGrowsExactly(d, s, steps[0]);
      RunRevives(d, Next(d, s, steps[0]), steps[1..], t);
    }
  }

  // ---- one node stays up ----

  predicate HostIn(h: Host, c: ClusterId)
  {
    (forall p :: p in h.procs ==> h.procs[p] == c) && (h.data.Some? ==> h.data.value == c)
  }

  predicate PlanIn(plan: Plan, c: ClusterId) { plan.ExistingCluster? && plan.cluster == c }

  predicate PhaseIn(p: Phase, c: ClusterId)
  {
    match p
    case Adding(prior, cluster) => prior != [] && cluster == c
    case Launching(plan) => PlanIn(plan, c)
    case Syncing(plan, _) => PlanIn(plan, c)
    case _ => true
  }

  /** Node `a` is a running member of the only cluster, and all others belong to it. */
  ghost predicate Anchored(d: Deployment, s: State, a: NodeId, c: ClusterId)
  {
    && Inv(d, s)
    && a in d && RunsIn(s.world.hosts[a], c)
    && s.world.clusters.Keys == {c}
    && Present(s.world, c, d[a].url)
    && forall i :: i in d ==> HostIn(s.world.hosts[i], c) && PhaseIn(s.phase[i], c)
  }

  /** The anchor runs throughout, and every list succeeds within its tries. */
  predicate Harmless(s: State, step: Step, a: NodeId)
  {
    (step.node == a ==> step.Publish?) && !FailsLastTry(s, step)
  }

  lemma OnlyLive(d: Deployment, s: State, a: NodeId, c: ClusterId, e: ClusterId)
    requires Anchored(d, s, a, c)
    ensures Live(s.world, e) <==> e == c
  {
    if Live(s.world, e) {
      var i :| i in s.world.hosts && RunsIn(s.world.hosts[i], e);
      assert HostIn(s.world.hosts[i], c);
    }
  }

  lemma OwnHostStaysIn(d: Deployment, s: State, step: Step, c: ClusterId)
    requires Shape(d, s) && Enabled(d, s, step)
    requires HostIn(s.world.hosts[step.node], c) && PhaseIn(s.phase[step.node], c)
    ensures HostIn(Next(d, s, step).world.hosts[step.node], c)
  {
    if step.Launch? && step.launched.Some? {
      assert Next(d, s, step).world.hosts[step.node] ==
             WithProcess(s.world.hosts[step.node], step.launched.value, c);
    } else {
      OthersAddNoProcess(d, s, step);
    }
  }

  lemma OwnPhaseStaysIn(d: Deployment, s: State, step: Step, c: ClusterId)
    requires Shape(d, s) && Enabled(d, s, step) && s.world.clusters.Keys == {c} && s.world.clusters[c] != []
    requires PhaseIn(s.phase[step.node], c) && !FailsLastTry(s, step)
    ensures PhaseIn(Next(d, s, step).phase[step.node], c)
  {
  }

  lemma OwnNodeStaysIn(d: Deployment, s: State, step: Step, a: NodeId, c: ClusterId)
    requires Anchored(d, s, a, c) && Enabled(d, s, step) && Harmless(s, step, a)
    ensures HostIn(Next(d, s, step).world.hosts[step.node], c)
    ensures PhaseIn(Next(d, s, step).phase[step.node], c)
  {
    assert HostIn(s.world.hosts[step.node], c) && PhaseIn(s.phase[step.node], c);
    var m :| Entry(s.world, c, m);
    assert m in s.world.clusters[c];
    OwnHostStaysIn(d, s, step, c);
    OwnPhaseStaysIn(d, s, step, c);
  }

  lemma AnchorEntryStays(d: Deployment, s: State, step: Step, a: NodeId, c: ClusterId)
    requires Anchored(d, s, a, c) && Enabled(d, s, step) && Harmless(s, step, a)
    ensures Present(Next(d, s, step).world, c, d[a].url)
  {
    StepEvolves(d, s, step);
    PresentStays(d, s.world, Next(d, s, step).world, step.node, a, c);
  }

  lemma AnchoredCarriesOver(d: Deployment, s: State, t: State, i: NodeId, a: NodeId, c: ClusterId)
    requires Anchored(d, s, a, c) && i in d && Inv(d, t) && t.world.clusters.Keys == {c}
    requires HostIn(t.world.hosts[i], c) && PhaseIn(t.phase[i], c)
    requires forall j :: j in d && j != i ==> t.world.hosts[j] == s.world.hosts[j] && t.phase[j] == s.phase[j]
    requires i == a ==> t.world.hosts == s.world.hosts
    requires Present(t.world, c, d[a].url)
    ensures Anchored(d, t, a, c)
  {
    forall j | j in d ensures HostIn(t.world.hosts[j], c) && PhaseIn(t.phase[j], c) {
      assert HostIn(s.world.hosts[j], c) && PhaseIn(s.phase[j], c);
    }
  }

  lemma NoOtherCluster(d: Deployment, s: State, step: Step, a: NodeId, c: ClusterId)
    requires Anchored(d, s, a, c) && Enabled(d, s, step)
    ensures Next(d, s, step).world.clusters.Keys == {c}
  {
    StepCreates(d, s, step);
    assert PhaseIn(s.phase[step.node], c);
  }

  lemma StepStaysAnchored(d: Deployment, s: State, step: Step, a: NodeId, c: ClusterId)
    requires Anchored(d, s, a, c) && Enabled(d, s, step) && Harmless(s, step, a)
    ensures Anchored(d, Next(d, s, step), a, c)
  {
    StepKeepsInv(d, s, step);
    OwnNodeStaysIn(d, s, step, a, c);
    AnchorEntryStays(d, s, step, a, c);
    OtherNodesUntouched(d, s, step);
    NoOtherCluster(d, s, step, a, c);
    AnchoredCarriesOver(d, s, Next(d, s, step), step.node, a, c);
  }

  ghost function HarmlessFor(a: NodeId): Condition { (s: State, step: Step) => Harmless(s, step, a) }

  lemma AddsServedByTheList(d: Deployment, s: State, step: Step, a: NodeId, c: ClusterId)
    requires Anchored(d, s, a, c) && Enabled(d, s, step)
    ensures SameServer(s, step)
  {
    assert PhaseIn(s.phase[step.node], c);
  }

  /** While one member runs throughout and lists succeed within five tries, every interleaving of the
      other nodes keeps exactly one live cluster, joins only that, and keeps peer URLs unique. */
  lemma {:induction false} AnchoredRun(
      d: Deployment, s: State, steps: seq<Step>, t: State, a: NodeId, c: ClusterId)
    requires Anchored(d, s, a, c) && Run(d, s, steps, t) && Each(d, s, steps, HarmlessFor(a))
    ensures Anchored(d, t, a, c)
    ensures forall e :: Live(t.world, e) <==> e == c
    ensures UrlsOk(d, s) ==> UrlsOk(d, t)
    decreases |steps|
  {
    if steps == [] {
      forall e ensures Live(t.world, e) <==> e == c { OnlyLive(d, t, a, c, e); }
    } else {
      StepStaysAnchored(d, s, steps[0], a, c);
      AddsServedByTheList(d, s, steps[0], a, c);
      if UrlsOk(d, s) { StepKeepsUrls(d, s, steps[0]); }
      AnchoredRun(d, Next(d, s, steps[0]), steps[1..], t, a, c);
    }
  }

  // ---- five failed lists ----

  /** The last failed list and the launch after it. */
  function SplitSteps(i: NodeId, pid: Pid, created: ClusterId, id: string): seq<Step>
  {
    [List(i, None), Launch(i, Some(pid), created, id)]
  }

  lemma TwoStepRun(d: Deployment, s: State, first: Step, s1: State, second: Step, t: State)
    requires Shape(d, s) && Enabled(d, s, first) && s1 == Next(d, s, first)
    requires Enabled(d, s1, second) && t == Next(d, s1, second)
    ensures Run(d, s, [first, second], t)
  {
    assert [first, second][1..] == [second] && [second][1..] == [];
    assert Run(d, s1, [second], t);
  }

  lemma TwoStepResult(d: Deployment, s: State, first: Step, s1: State, second: Step, t: State)
    requires Shape(d, s) && Enabled(d, s, first) && s1 == Next(d, s, first) && Run(d, s, [first, second], t)
    ensures Enabled(d, s1, second) && t == Next(d, s1, second)
  {
    assert [first, second][1..] == [second] && [second][1..] == [];
    assert Run(d, s1, [second], t);
    assert Run(d, Next(d, s1, second), [], t);
  }

  lemma LastListFails(d: Deployment, s: State, i: NodeId, t: State)
    requires Shape(d, s) && i in d && s.phase[i] == Phase.Listing(4)
    requires t == To(s, i, s.world, Launching(PlanFor([], None, d[i])))
    ensures Enabled(d, s, List(i, None)) && Next(d, s, List(i, None)) == t && Shape(d, t)
    ensures t.phase[i].Launching? && t.phase[i].plan.NewCluster?
  {
  }

  lemma FreshLaunch(d: Deployment, s: State, c: ClusterId, i: NodeId, pid: Pid, created: ClusterId, id: string)
    requires Shape(d, s) && i in d && s.phase[i].Launching? && s.phase[i].plan.NewCluster?
    requires pid !in s.world.hosts[i].procs && created !in s.world.clusters && NewId(s.world, id)
    requires Live(s.world, c) && !Live(s.world, created) && HostIn(s.world.hosts[i], c) && c != created
    ensures var step := Launch(i, Some(pid), created, id);
            && Enabled(d, s, step)
            && Live(Next(d, s, step).world, c)
            && (Live(Next(d, s, step).world, created) <==> s.world.hosts[i].data.None?)
  {
    var step := Launch(i, Some(pid), created, id);
    LaunchRevivesExactly(d, s, step, c);
    LaunchRevivesExactly(d, s, step, created);
  }

  /** A node whose lists all fail starts a second live cluster next to a healthy one, exactly when it
      has no data directory to return to. */
  lemma FiveFailuresSplit(
      d: Deployment, s: State, a: NodeId, c: ClusterId, i: NodeId, pid: Pid, created: ClusterId, id: string)
    requires Anchored(d, s, a, c) && i in d && s.phase[i] == Phase.Listing(4)
    requires pid !in s.world.hosts[i].procs && created !in s.world.clusters && NewId(s.world, id)
    ensures exists t :: Run(d, s, SplitSteps(i, pid, created, id), t)
                        && Live(t.world, c)
                        && (Live(t.world, created) <==> s.world.hosts[i].data.None?)
  {
    var steps := SplitSteps(i, pid, created, id);
    var s1 := To(s, i, s.world, Launching(PlanFor([], None, d[i])));
    LastListFails(d, s, i, s1);
    OnlyLive(d, s, a, c, c);
    OnlyLive(d, s, a, c, created);
    assert HostIn(s.world.hosts[i], c);
    FreshLaunch(d, s1, c, i, pid, created, id);
    TwoStepRun(d, s, steps[0], s1, steps[1], Next(d, s1, steps[1]));
  }
}
