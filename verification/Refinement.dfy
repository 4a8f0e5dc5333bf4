/** The whole Starts and Stops of Application are runs of Protocol, step by step with the same answers: what holds
    in every interleaving holds of them, whatever the other nodes are in the middle of. */
module Refinement {
  import opened Wrappers
  import Text
  import opened Fleet
  import opened Site
  import opened ClusterController
  import opened SyncController
  import opened Application
  import opened Protocol
  import opened SingleCluster

  lemma ToTwice(s: State, i: NodeId, w: World, p: Phase, v: World, q: Phase)
    ensures To(To(s, i, w, p), i, v, q) == To(s, i, v, q)
  {
    assert s.phase[i := p][i := q] == s.phase[i := q];
  }

  // ---- runs ----

  lemma {:induction false} RunConcat(d: Deployment, s: State, a: seq<Step>, t: State, b: seq<Step>, u: State)
    requires Shape(d, s) && Run(d, s, a, t)
    ensures Shape(d, t)
    ensures Run(d, t, b, u) ==> Run(d, s, a + b, u)
    decreases |a|
  {
    if a == [] {
      assert a + b == b;
    } else {
      RunConcat(d, Next(d, s, a[0]), a[1..], t, b, u);
      assert (a + b)[1..] == a[1..] + b;
    }
  }

  lemma RunNothing(d: Deployment, s: State)
    requires Shape(d, s)
    ensures Run(d, s, [], s)
  {
  }

  lemma RunOn(d: Deployment, s: State, step: Step, s1: State, rest: seq<Step>, t: State)
    requires Shape(d, s) && Enabled(d, s, step) && s1 == Next(d, s, step) && Run(d, s1, rest, t)
    ensures Run(d, s, [step] + rest, t)
  {
    assert ([step] + rest)[1..] == rest;
  }

  lemma RunOne(d: Deployment, s: State, step: Step, t: State)
    requires Shape(d, s) && Enabled(d, s, step) && t == Next(d, s, step)
    ensures Run(d, s, [step], t)
  {
    RunNothing(d, t);
    RunOn(d, s, step, t, [], t);
    assert [step] + [] == [step];
  }

  /** Steps of one node. */
  predicate OwnSteps(steps: seq<Step>, i: NodeId) { forall k :: 0 <= k < |steps| ==> steps[k].node == i }

  type Runs = (State, seq<Step>, State) -> bool

  /** A relation that holds of the steps of node `i`, and of two runs on end: it stands for Run. */
  ghost predicate Closed(d: Deployment, i: NodeId, R: Runs)
  {
    && (forall s, step ::
          Shape(d, s) && Enabled(d, s, step) && step.node == i ==> R(s, [step], Next(d, s, step)))
    && (forall s, a, t, b, u :: R(s, a, t) && R(t, b, u) ==> R(s, a + b, u))
  }

  ghost function OwnRuns(d: Deployment, i: NodeId): Runs
  {
    (s: State, steps: seq<Step>, t: State) => Shape(d, s) && Run(d, s, steps, t) && OwnSteps(steps, i)
  }

  lemma OwnRunsAreClosed(d: Deployment, i: NodeId)
    ensures Closed(d, i, OwnRuns(d, i))
  {
    forall s, step | Shape(d, s) && Enabled(d, s, step) && step.node == i
      ensures OwnRuns(d, i)(s, [step], Next(d, s, step))
    {
      RunOne(d, s, step, Next(d, s, step));
    }
    forall s, a, t, b, u | OwnRuns(d, i)(s, a, t) && OwnRuns(d, i)(t, b, u) ensures OwnRuns(d, i)(s, a + b, u) {
      RunConcat(d, s, a, t, b, u);
    }
  }

  /** Node `i` can lead from `s` to `t` by steps of its own. */
  ghost predicate Reaches(d: Deployment, s: State, t: State, i: NodeId)
  {
    Shape(d, s) && exists steps: seq<Step> :: OwnRun(d, s, steps, t, i)
  }

  ghost predicate OwnRun(d: Deployment, s: State, steps: seq<Step>, t: State, i: NodeId)
    requires Shape(d, s)
  {
    Run(d, s, steps, t) && OwnSteps(steps, i)
  }

  lemma StepReaches(d: Deployment, s: State, step: Step)
    requires Shape(d, s) && Enabled(d, s, step)
    ensures Reaches(d, s, Next(d, s, step), step.node)
  {
    RunOne(d, s, step, Next(d, s, step));
    assert OwnRun(d, s, [step], Next(d, s, step), step.node);
  }

  // ---- taking a node down ----

  lemma WipeStep(d: Deployment, s: State, i: NodeId, w: World, wiped: bool)
    requires Shape(d, s) && i in d && w.hosts.Keys == d.Keys
    ensures var s0 := To(s, i, w, Wiping);
            Enabled(d, s0, Wipe(i, wiped))
            && Next(d, s0, Wipe(i, wiped)) == To(s, i, SetHost(w, i, Wiped(w.hosts[i], wiped)), Killing)
  {
    ToTwice(s, i, w, Wiping, SetHost(w, i, Wiped(w.hosts[i], wiped)), Killing);
  }

  lemma KillStep(d: Deployment, s: State, i: NodeId, w: World, unlinked: bool)
    requires Shape(d, s) && i in d && w.hosts.Keys == d.Keys
    ensures var s0 := To(s, i, w, Killing);
            Enabled(d, s0, Kill(i, unlinked))
            && Next(d, s0, Kill(i, unlinked)) == To(s, i, SetHost(w, i, Killed(w.hosts[i], unlinked)), Idle)
  {
    ToTwice(s, i, w, Killing, SetHost(w, i, Killed(w.hosts[i], unlinked)), Idle);
  }

  lemma SetHostTwice(w: World, i: NodeId, h: Host, g: Host)
    ensures SetHost(SetHost(w, i, h), i, g) == SetHost(w, i, g)
  {
    assert w.hosts[i := h][i := g] == w.hosts[i := g];
  }

  function TakeDownSteps(i: NodeId, a: StopAnswers): seq<Step> { [Wipe(i, a.wiped)] + [Kill(i, a.unlinked)] }

  lemma TakeDownRun(d: Deployment, R: Runs, s: State, i: NodeId, w: World, a: StopAnswers)
    requires Closed(d, i, R) && Shape(d, s) && i in d && w.hosts.Keys == d.Keys
    ensures R(To(s, i, w, Wiping), TakeDownSteps(i, a), To(s, i, SetHost(w, i, TakenDown(w.hosts[i], a)), Idle))
  {
    WipeStep(d, s, i, w, a.wiped);
    KillStep(d, s, i, SetHost(w, i, Wiped(w.hosts[i], a.wiped)), a.unlinked);
    SetHostTwice(w, i, Wiped(w.hosts[i], a.wiped), TakenDown(w.hosts[i], a));
  }

  function LeaveSteps(i: NodeId, a: StopAnswers): seq<Step> { [Look(i, a.relisted)] + [Remove(i, a.removed)] }

  lemma LookStep(d: Deployment, s: State, i: NodeId, w: World, served: Option<ClusterId>)
    requires Shape(d, s) && i in d && w.hosts.Keys == d.Keys && MayServe(w, served)
    ensures var s0 := To(s, i, w, Looking);
            Enabled(d, s0, Look(i, served)) &&
            Next(d, s0, Look(i, served)) == To(s, i, w, Removing(OwnId(Listed(w, served), d[i].name)))
  {
    ToTwice(s, i, w, Looking, w, Removing(OwnId(Listed(w, served), d[i].name)));
  }

  lemma RemoveStep(d: Deployment, s: State, i: NodeId, w: World, id: string, served: Option<ClusterId>)
    requires Shape(d, s) && i in d && w.hosts.Keys == d.Keys && MayServe(w, served)
    ensures var s0 := To(s, i, w, Removing(id));
            var v := if MemberRemove(w, served, id).Some? then MemberRemove(w, served, id).value else w;
            Enabled(d, s0, Remove(i, served)) && Next(d, s0, Remove(i, served)) == To(s, i, v, Wiping)
  {
    var v := if MemberRemove(w, served, id).Some? then MemberRemove(w, served, id).value else w;
    ToTwice(s, i, w, Removing(id), v, Wiping);
  }

  lemma LeaveRun(d: Deployment, R: Runs, s: State, i: NodeId, w: World, a: StopAnswers)
    requires Closed(d, i, R) && Shape(d, s) && i in d && w.hosts.Keys == d.Keys
    requires MayServe(w, a.relisted) && MayServe(w, a.removed)
    ensures R(To(s, i, w, Looking), LeaveSteps(i, a), To(s, i, RemoveSelf(w, d[i], a), Wiping))
  {
    LookStep(d, s, i, w, a.relisted);
    RemoveStep(d, s, i, w, OwnId(Listed(w, a.relisted), d[i].name), a.removed);
  }

  /** Leaving the cluster if asked to, and then taking the node down. */
  function GoSteps(i: NodeId, leave: bool, a: StopAnswers): seq<Step>
  {
    if leave then LeaveSteps(i, a) + TakeDownSteps(i, a) else TakeDownSteps(i, a)
  }

  lemma GoRun(d: Deployment, R: Runs, s: State, i: NodeId, w: World, leave: bool, a: StopAnswers)
    requires Closed(d, i, R) && Shape(d, s) && i in d && w.hosts.Keys == d.Keys
    requires MayServe(w, a.relisted) && MayServe(w, a.removed)
    ensures var v := if leave then RemoveSelf(w, d[i], a) else w;
            R(To(s, i, w, if leave then Looking else Wiping), GoSteps(i, leave, a),
              To(s, i, SetHost(v, i, TakenDown(w.hosts[i], a)), Idle))
  {
    if leave {
      LeaveRun(d, R, s, i, w, a);
      TakeDownRun(d, R, s, i, RemoveSelf(w, d[i], a), a);
    } else {
      TakeDownRun(d, R, s, i, w, a);
    }
  }

  /** The steps of a Stop, in which each call has its own answer. */
  function StopSteps(w: World, i: NodeId, self: Identity, a: StopAnswers): seq<Step>
  {
    if !a.configured then []
    else [BeginStop(i)] + ([Decide(i, a.decided)] + GoSteps(i, HadOtherNodes(Listed(w, a.decided), self.name), a))
  }

  lemma BeginStopStep(d: Deployment, s: State, i: NodeId)
    requires Shape(d, s) && i in d && s.phase[i].Idle?
    ensures Enabled(d, s, BeginStop(i)) && Next(d, s, BeginStop(i)) == To(s, i, s.world, Deciding)
  {
  }

  lemma DecideStep(d: Deployment, s: State, i: NodeId, w: World, served: Option<ClusterId>)
    requires Shape(d, s) && i in d && w.hosts.Keys == d.Keys && MayServe(w, served)
    ensures var s0 := To(s, i, w, Deciding);
            var p := if HadOtherNodes(Listed(w, served), d[i].name) then Looking else Wiping;
            Enabled(d, s0, Decide(i, served)) && Next(d, s0, Decide(i, served)) == To(s, i, w, p)
  {
    ToTwice(s, i, w, Deciding, w, if HadOtherNodes(Listed(w, served), d[i].name) then Looking else Wiping);
  }

  lemma StopRun(d: Deployment, R: Runs, s: State, i: NodeId, a: StopAnswers)
    requires Closed(d, i, R) && Shape(d, s) && i in d && s.phase[i].Idle? && a.configured
    requires MayServe(s.world, a.decided) && MayServe(s.world, a.relisted) && MayServe(s.world, a.removed)
    ensures R(s, StopSteps(s.world, i, d[i], a), To(s, i, Stop(s.world, i, d[i], a).world, Idle))
  {
    var leave := HadOtherNodes(Listed(s.world, a.decided), d[i].name);
    var t := To(s, i, Stop(s.world, i, d[i], a).world, Idle);
    BeginStopStep(d, s, i);
    DecideStep(d, s, i, s.world, a.decided);
    GoRun(d, R, s, i, s.world, leave, a);
    assert R(To(s, i, s.world, Deciding), [Decide(i, a.decided)] + GoSteps(i, leave, a), t);
  }

  /** A Stop is the run of these steps, with the other nodes in any phase. */
  lemma StopIsRun(d: Deployment, s: State, i: NodeId, a: StopAnswers)
    requires Shape(d, s) && i in d && s.phase[i].Idle?
    requires MayServe(s.world, a.decided) && MayServe(s.world, a.relisted) && MayServe(s.world, a.removed)
    ensures Run(d, s, StopSteps(s.world, i, d[i], a), To(s, i, Stop(s.world, i, d[i], a).world, Idle))
    ensures OwnSteps(StopSteps(s.world, i, d[i], a), i)
  {
    if a.configured {
      OwnRunsAreClosed(d, i);
      StopRun(d, OwnRuns(d, i), s, i, a);
    } else {
      assert To(s, i, s.world, Idle) == s;
    }
  }

  // ---- starting a node ----

  lemma ListStep(d: Deployment, s: State, i: NodeId, w: World, k: nat, served: Option<ClusterId>)
    requires Shape(d, s) && i in d && w.hosts.Keys == d.Keys && MayServe(w, served)
    ensures var s0 := To(s, i, w, Phase.Listing(k));
            Enabled(d, s0, List(i, served)) &&
            Next(d, s0, List(i, served)) == To(s, i, w, ListPhase(w, k, served, d[i]))
  {
    ToTwice(s, i, w, Phase.Listing(k), w, ListPhase(w, k, served, d[i]));
  }

  /** The phase after one more try. */
  lemma TryAgain(w: World, listed: nat -> Option<ClusterId>, k: nat, self: Identity)
    requires k < MEMBER_LIST_TRIES
    ensures var l := ListFrom(w, listed, k);
            if Listed(w, listed(k)).None? && k + 1 < MEMBER_LIST_TRIES then
              ListPhase(w, k, listed(k), self) == Phase.Listing(k + 1) && l == ListFrom(w, listed, k + 1)
            else ListPhase(w, k, listed(k), self) == AfterList(l.prior, l.cluster, self)
  {
    assert Listed(w, listed(k)).None? ==> ListFrom(w, listed, k) == ListFrom(w, listed, k + 1);
  }

  /** The lists up to the first one answered, or the fifth. */
  function ListSteps(w: World, i: NodeId, listed: nat -> Option<ClusterId>, k: nat): seq<Step>
    requires k < MEMBER_LIST_TRIES
    decreases MEMBER_LIST_TRIES - k
  {
    if Listed(w, listed(k)).None? && k + 1 < MEMBER_LIST_TRIES then
      [List(i, listed(k))] + ListSteps(w, i, listed, k + 1)
    else [List(i, listed(k))]
  }

  lemma ListStepIn(d: Deployment, R: Runs, s: State, i: NodeId, w: World, k: nat, served: Option<ClusterId>)
    requires Closed(d, i, R) && Shape(d, s) && i in d && w.hosts.Keys == d.Keys && MayServe(w, served)
    ensures R(To(s, i, w, Phase.Listing(k)), [List(i, served)], To(s, i, w, ListPhase(w, k, served, d[i])))
  {
    ListStep(d, s, i, w, k, served);
  }

  lemma {:induction false} ListRun(
      d: Deployment, R: Runs, s: State, i: NodeId, w: World, listed: nat -> Option<ClusterId>, k: nat)
    requires Closed(d, i, R) && Shape(d, s) && i in d && w.hosts.Keys == d.Keys && k < MEMBER_LIST_TRIES
    requires forall j :: MayServe(w, listed(j))
    ensures var l := ListFrom(w, listed, k);
            R(To(s, i, w, Phase.Listing(k)), ListSteps(w, i, listed, k),
              To(s, i, w, AfterList(l.prior, l.cluster, d[i])))
    decreases MEMBER_LIST_TRIES - k
  {
    assert MayServe(w, listed(k));
    TryAgain(w, listed, k, d[i]);
    ListStepIn(d, R, s, i, w, k, listed(k));
    if Listed(w, listed(k)).None? && k + 1 < MEMBER_LIST_TRIES {
      ListRun(d, R, s, i, w, listed, k + 1);
    }
  }

  /** The answers are those of live clusters, and what is new is new. */
  ghost predicate Realistic(d: Deployment, w: World, i: NodeId, a: StartAnswers)
    requires i in d && i in w.hosts
  {
    && (forall k :: MayServe(w, a.listed(k))) && MayServe(w, a.added)
    && NewId(w, a.newId) && a.created !in w.clusters
    && (a.launched.Some? ==> a.launched.value !in w.hosts[i].procs)
    && (w.hosts[i].data.Some? ==> w.hosts[i].data.value in w.clusters)
  }

  /** The state after GetInitialClusterState: launching, or idle after a failed add. */
  function Planned(s: State, i: NodeId, o: Outcome): State
  {
    To(s, i, o.world, if o.plan.Some? then Launching(o.plan.value) else Idle)
  }

  lemma BeginStep(d: Deployment, s: State, i: NodeId)
    requires Shape(d, s) && i in d && s.phase[i].Idle?
    ensures Enabled(d, s, BeginStart(i)) && Next(d, s, BeginStart(i)) == To(s, i, s.world, Phase.Listing(0))
  {
  }

  lemma AddStep(d: Deployment, s: State, i: NodeId, a: StartAnswers, l: ListResult)
    requires Shape(d, s) && i in d && MayServe(s.world, a.added) && NewId(s.world, a.newId)
    requires l == ListFrom(s.world, a.listed, 0) && MustAdd(l.prior, d[i])
    ensures var s0 := To(s, i, s.world, AfterList(l.prior, l.cluster, d[i]));
            && Enabled(d, s0, Add(i, a.added, a.newId))
            && Next(d, s0, Add(i, a.added, a.newId)) == Planned(s, i, InitialClusterState(s.world, d[i], a))
  {
    var o := InitialClusterState(s.world, d[i], a);
    ToTwice(s, i, s.world, AfterList(l.prior, l.cluster, d[i]), o.world, Planned(s, i, o).phase[i]);
  }

  /** The steps of GetInitialClusterState. */
  function InitialSteps(w: World, i: NodeId, self: Identity, a: StartAnswers): seq<Step>
  {
    var lists := ListSteps(w, i, a.listed, 0);
    [BeginStart(i)] +
    if MustAdd(ListFrom(w, a.listed, 0).prior, self) then lists + [Add(i, a.added, a.newId)] else lists
  }

  lemma InitialStateRun(d: Deployment, R: Runs, s: State, i: NodeId, a: StartAnswers)
    requires Closed(d, i, R) && Shape(d, s) && i in d && s.phase[i].Idle? && Realistic(d, s.world, i, a)
    ensures R(s, InitialSteps(s.world, i, d[i], a), Planned(s, i, InitialClusterState(s.world, d[i], a)))
  {
    var l := ListFrom(s.world, a.listed, 0);
    BeginStep(d, s, i);
    ListRun(d, R, s, i, s.world, a.listed, 0);
    if MustAdd(l.prior, d[i]) {
      AddStep(d, s, i, a, l);
      assert R(To(s, i, s.world, Phase.Listing(0)), ListSteps(s.world, i, a.listed, 0) + [Add(i, a.added, a.newId)],
               Planned(s, i, InitialClusterState(s.world, d[i], a)));
    }
  }

  /** The launch, and the publication if there is one. */
  function LaunchSteps(w: World, i: NodeId, plan: Plan, pid: Pid, a: StartAnswers): seq<Step>
    requires i in w.hosts
  {
    var launch := [Step.Launch(i, Some(pid), a.created, a.newId)];
    if a.published then launch + [Step.Publish(i, Target(w.hosts[i], plan, a.created))] else launch
  }

  lemma LaunchStep(d: Deployment, s: State, i: NodeId, w: World, plan: Plan, pid: Pid, a: StartAnswers)
    requires Shape(d, s) && i in d && w.hosts.Keys == d.Keys && pid !in w.hosts[i].procs
    requires Bootstraps(w.hosts[i], plan) ==> a.created !in w.clusters && NewId(w, a.newId)
    ensures var s0, step := To(s, i, w, Launching(plan)), Step.Launch(i, Some(pid), a.created, a.newId);
            && Enabled(d, s0, step)
            && Next(d, s0, step) ==
               To(s, i, Fleet.Launch(w, i, d[i], plan, pid, a.created, a.newId), Syncing(plan, pid))
  {
    var v := Fleet.Launch(w, i, d[i], plan, pid, a.created, a.newId);
    ToTwice(s, i, w, Launching(plan), v, Syncing(plan, pid));
  }

  lemma PublishStep(d: Deployment, s: State, i: NodeId, w: World, p: Phase, c: ClusterId)
    requires Shape(d, s) && i in d && w.hosts.Keys == d.Keys && c in w.clusters && RunsIn(w.hosts[i], c)
    ensures Enabled(d, To(s, i, w, p), Step.Publish(i, c))
    ensures Next(d, To(s, i, w, p), Step.Publish(i, c)) == To(s, i, Fleet.Publish(w, c, d[i]), p)
  {
  }

  lemma LaunchRun(d: Deployment, R: Runs, s: State, i: NodeId, w: World, plan: Plan, pid: Pid, a: StartAnswers)
    requires Closed(d, i, R) && Shape(d, s) && i in d && w.hosts.Keys == d.Keys && pid !in w.hosts[i].procs
    requires Bootstraps(w.hosts[i], plan) ==> a.created !in w.clusters && NewId(w, a.newId)
    requires w.hosts[i].data.Some? ==> w.hosts[i].data.value in w.clusters
    requires plan.ExistingCluster? ==> plan.cluster in w.clusters
    ensures R(To(s, i, w, Launching(plan)), LaunchSteps(w, i, plan, pid, a),
              To(s, i, LaunchAndPublish(w, i, d[i], plan, pid, a), Syncing(plan, pid)))
  {
    LaunchStep(d, s, i, w, plan, pid, a);
    if a.published {
      var c := Target(w.hosts[i], plan, a.created);
      LaunchedRuns(w.hosts[i], pid, c, c);
      PublishStep(d, s, i, Fleet.Launch(w, i, d[i], plan, pid, a.created, a.newId), Syncing(plan, pid), c);
    }
  }

  lemma SyncStep(d: Deployment, s: State, i: NodeId, w: World, plan: Plan, pid: Pid, synced: bool)
    requires Shape(d, s) && i in d && w.hosts.Keys == d.Keys
    ensures var s0 := To(s, i, w, Syncing(plan, pid));
            var p := if synced then WritingPid(pid) else if plan.ExistingCluster? then Looking else Wiping;
            Enabled(d, s0, Sync(i, synced)) && Next(d, s0, Sync(i, synced)) == To(s, i, w, p)
  {
    var p := if synced then WritingPid(pid) else if plan.ExistingCluster? then Looking else Wiping;
    ToTwice(s, i, w, Syncing(plan, pid), w, p);
  }

  lemma WritePidStep(d: Deployment, s: State, i: NodeId, w: World, pid: Pid, written: bool)
    requires Shape(d, s) && i in d && w.hosts.Keys == d.Keys
    ensures var s0 := To(s, i, w, WritingPid(pid));
            var v := if written then SetHost(w, i, w.hosts[i].(pidFile := Some(Text.Decimal(pid)))) else w;
            Enabled(d, s0, WritePid(i, written)) && Next(d, s0, WritePid(i, written)) == To(s, i, v, Idle)
  {
    var v := if written then SetHost(w, i, w.hosts[i].(pidFile := Some(Text.Decimal(pid)))) else w;
    ToTwice(s, i, w, WritingPid(pid), v, Idle);
  }

  /** The sync, and the pid file or the rollback. */
  function FinishSteps(i: NodeId, plan: Plan, a: StartAnswers): seq<Step>
  {
    var synced := Verify(a.selfClient, a.keys).synced;
    [Sync(i, synced)] +
    if synced then [WritePid(i, a.pidWritten)] else GoSteps(i, plan.ExistingCluster?, a.rollback)
  }

  lemma FinishRun(d: Deployment, R: Runs, s: State, i: NodeId, w: World, plan: Plan, pid: Pid, a: StartAnswers)
    requires Closed(d, i, R) && Shape(d, s) && i in d && w.hosts.Keys == d.Keys
    requires MayServe(w, a.rollback.relisted) && MayServe(w, a.rollback.removed)
    ensures R(To(s, i, w, Syncing(plan, pid)), FinishSteps(i, plan, a),
              To(s, i, Finish(w, i, d[i], plan, pid, a).world, Idle))
  {
    var synced := Verify(a.selfClient, a.keys).synced;
    SyncStep(d, s, i, w, plan, pid, synced);
    if synced {
      WritePidStep(d, s, i, w, pid, a.pidWritten);
    } else {
      GoRun(d, R, s, i, w, plan.ExistingCluster?, a.rollback);
    }
  }

  /** The world in which a Start waits for its etcd to sync. */
  function Launched(w: World, i: NodeId, self: Identity, a: StartAnswers): Option<World>
    requires i in w.hosts
  {
    var o := InitialClusterState(w, self, a);
    if o.plan.Some? && a.launched.Some? then
      Some(LaunchAndPublish(o.world, i, self, o.plan.value, a.launched.value, a))
    else None
  }

  /** The calls of a rollback are answered by clusters live at that time. */
  predicate RollbackServed(w: World, i: NodeId, self: Identity, a: StartAnswers)
    requires i in w.hosts
  {
    var w2 := Launched(w, i, self, a);
    w2.Some? ==> MayServe(w2.value, a.rollback.relisted) && MayServe(w2.value, a.rollback.removed)
  }

  /** What follows the plan. */
  function AfterPlanSteps(w: World, i: NodeId, plan: Plan, a: StartAnswers): seq<Step>
    requires i in w.hosts
  {
    if a.launched.None? then [Step.Launch(i, None, a.created, a.newId)]
    else LaunchSteps(w, i, plan, a.launched.value, a) + FinishSteps(i, plan, a)
  }

  /** The steps of a Start, in which each call has its own answer. */
  function StartSteps(w: World, i: NodeId, self: Identity, a: StartAnswers): seq<Step>
    requires i in w.hosts
  {
    var o := InitialClusterState(w, self, a);
    if !a.configured then []
    else if o.plan.None? then InitialSteps(w, i, self, a)
    else InitialSteps(w, i, self, a) + AfterPlanSteps(o.world, i, o.plan.value, a)
  }

  lemma NoLaunchStep(d: Deployment, s: State, i: NodeId, w: World, plan: Plan, created: ClusterId, id: string)
    requires Shape(d, s) && i in d && w.hosts.Keys == d.Keys
    ensures var s0, step := To(s, i, w, Launching(plan)), Step.Launch(i, None, created, id);
            Enabled(d, s0, step) && Next(d, s0, step) == To(s, i, w, Idle)
  {
    ToTwice(s, i, w, Launching(plan), w, Idle);
  }

  lemma AfterPlanRun(d: Deployment, R: Runs, s: State, i: NodeId, w: World, plan: Plan, a: StartAnswers)
    requires Closed(d, i, R) && Shape(d, s) && i in d && w.hosts.Keys == d.Keys
    requires a.launched.Some? ==> a.launched.value !in w.hosts[i].procs
    requires Bootstraps(w.hosts[i], plan) ==> a.created !in w.clusters && NewId(w, a.newId)
    requires w.hosts[i].data.Some? ==> w.hosts[i].data.value in w.clusters
    requires plan.ExistingCluster? ==> plan.cluster in w.clusters
    requires a.launched.Some? ==>
               var w2 := LaunchAndPublish(w, i, d[i], plan, a.launched.value, a);
               MayServe(w2, a.rollback.relisted) && MayServe(w2, a.rollback.removed)
    ensures R(To(s, i, w, Launching(plan)), AfterPlanSteps(w, i, plan, a),
              To(s, i, RestOfStart(w, i, d[i], plan, a), Idle))
  {
    if a.launched.None? {
      NoLaunchStep(d, s, i, w, plan, a.created, a.newId);
    } else {
      LaunchRun(d, R, s, i, w, plan, a.launched.value, a);
      FinishRun(d, R, s, i, LaunchAndPublish(w, i, d[i], plan, a.launched.value, a), plan, a.launched.value, a);
    }
  }

  /** The world a Start leaves once it has its plan. */
  function RestOfStart(w: World, i: NodeId, self: Identity, plan: Plan, a: StartAnswers): World
    requires i in w.hosts
  {
    if a.launched.None? then w
    else
      var w2 := LaunchAndPublish(w, i, self, plan, a.launched.value, a);
      Finish(w2, i, self, plan, a.launched.value, a).world
  }

  lemma PlanIsPossible(w: World, self: Identity, a: StartAnswers)
    ensures var o := InitialClusterState(w, self, a);
            && o.world.hosts == w.hosts && w.clusters.Keys <= o.world.clusters.Keys
            && (o.plan.Some? && o.plan.value.ExistingCluster? ==> o.plan.value.cluster in w.clusters)
            && (o.plan.Some? && o.plan.value.NewCluster? ==> o.world == w)
  {
  }

  lemma StartIsPlanAndRest(w: World, i: NodeId, self: Identity, a: StartAnswers)
    requires i in w.hosts && a.configured
    ensures var o := InitialClusterState(w, self, a);
            Start(w, i, self, a).world ==
            if o.plan.None? then o.world else RestOfStart(o.world, i, self, o.plan.value, a)
  {
  }

  lemma StartRun(d: Deployment, R: Runs, s: State, i: NodeId, a: StartAnswers)
    requires Closed(d, i, R) && Shape(d, s) && i in d && s.phase[i].Idle? && Realistic(d, s.world, i, a)
    requires RollbackServed(s.world, i, d[i], a) && a.configured
    ensures R(s, StartSteps(s.world, i, d[i], a), To(s, i, Start(s.world, i, d[i], a).world, Idle))
  {
    var o := InitialClusterState(s.world, d[i], a);
    InitialStateRun(d, R, s, i, a);
    PlanIsPossible(s.world, d[i], a);
    StartIsPlanAndRest(s.world, i, d[i], a);
    if o.plan.Some? { AfterPlanRun(d, R, s, i, o.world, o.plan.value, a); }
  }

  /** A Start is the run of these steps, with the other nodes in any phase. */
  lemma StartIsRun(d: Deployment, s: State, i: NodeId, a: StartAnswers)
    requires Shape(d, s) && i in d && s.phase[i].Idle? && Realistic(d, s.world, i, a)
    requires RollbackServed(s.world, i, d[i], a)
    ensures Run(d, s, StartSteps(s.world, i, d[i], a), To(s, i, Start(s.world, i, d[i], a).world, Idle))
    ensures OwnSteps(StartSteps(s.world, i, d[i], a), i)
  {
    if a.configured {
      OwnRunsAreClosed(d, i);
      StartRun(d, OwnRuns(d, i), s, i, a);
    } else {
      assert To(s, i, s.world, Idle) == s;
    }
  }

  lemma StartReaches(d: Deployment, s: State, i: NodeId, a: StartAnswers)
    requires Shape(d, s) && i in d && s.phase[i].Idle? && Realistic(d, s.world, i, a)
    requires RollbackServed(s.world, i, d[i], a)
    ensures Reaches(d, s, To(s, i, Start(s.world, i, d[i], a).world, Idle), i)
  {
    StartIsRun(d, s, i, a);
    assert OwnRun(d, s, StartSteps(s.world, i, d[i], a), To(s, i, Start(s.world, i, d[i], a).world, Idle), i);
  }
}
