/** The converse of Refinement: whatever steps one node takes from beginning a Start or a Stop until it is idle again,
    they are a Start or a Stop of Application with some answers. */
module Operations {
  import opened Wrappers
  import Text
  import opened Fleet
  import opened Site
  import opened ClusterController
  import opened SyncController
  import opened Application
  import opened Protocol
  import opened Refinement

  /** A step of etcdfab on node `i` that is not cut short, or the etcd it has launched announcing its name. */
  predicate Ordinary(s: State, step: Step, i: NodeId)
    requires i in s.phase && i in s.world.hosts
  {
    && step.node == i && !step.Abort? && !step.Exit?
    && (step.Publish? ==>
          var p, h := s.phase[i], s.world.hosts[i];
          p.Syncing? && p.pid in h.procs && step.cluster == h.procs[p.pid])
  }

  /** The steps lead from `s` to `t`, where the node first becomes idle. */
  ghost predicate Operation(d: Deployment, s: State, steps: seq<Step>, t: State, i: NodeId)
    requires Shape(d, s) && i in d
    decreases |steps|
  {
    && steps != [] && Enabled(d, s, steps[0]) && Ordinary(s, steps[0], i)
    && var s1 := Next(d, s, steps[0]);
       if s1.phase[i].Idle? then steps[1..] == [] && s1 == t else Operation(d, s1, steps[1..], t, i)
  }

  /** At any time a process can exit, and etcdfab be killed in any phase; neither takes anything else along. */
  lemma EndsExactly(d: Deployment, s: State, step: Step)
    requires Shape(d, s) && step.node in d && (step.Exit? || step.Abort?)
    ensures Enabled(d, s, step) <==>
            if step.Exit? then step.pid in s.world.hosts[step.node].procs else s.phase[step.node] != Idle
    ensures Enabled(d, s, step) ==>
              var t, i, h := Next(d, s, step), step.node, s.world.hosts[step.node];
              && t.world.clusters == s.world.clusters && t.world.usedIds == s.world.usedIds
              && t.phase == (if step.Abort? then s.phase[i := Idle] else s.phase)
              && (step.Abort? ==> t.world.hosts == s.world.hosts)
              && (step.Exit? ==> t.world.hosts == s.world.hosts[i := h.(procs := h.procs - {step.pid})])
  {
  }

  /** An etcd announces its name at any time, in its own cluster: its node's entries there get it, no others do. */
  lemma PublishExactly(d: Deployment, s: State, i: NodeId, c: ClusterId)
    requires Shape(d, s) && i in d && c in s.world.clusters
    ensures var step, h := Publish(i, c), s.world.hosts[i];
            && (Enabled(d, s, step) <==> exists pid :: pid in h.procs && h.procs[pid] == c)
            && (Enabled(d, s, step) ==>
                  var t, ms := Next(d, s, step), s.world.clusters[c];
                  && t.phase == s.phase && t.world.hosts == s.world.hosts && t.world.usedIds == s.world.usedIds
                  && t.world.clusters.Keys == s.world.clusters.Keys && |t.world.clusters[c]| == |ms|
                  && (forall e :: e in s.world.clusters && e != c ==> t.world.clusters[e] == s.world.clusters[e])
                  && forall k :: 0 <= k < |ms| ==>
                       t.world.clusters[c][k] == if ms[k].peerUrl == d[i].url
                                                 then Member(ms[k].id, d[i].name, ms[k].peerUrl) else ms[k])
  {
  }

  // ---- a Stop ----

  lemma DecideExactly(d: Deployment, s: State, step: Step)
    requires Shape(d, s) && Enabled(d, s, step) && step.Decide?
    ensures Next(d, s, step).phase[step.node] == Looking <==>
            step.served.Some? &&
            exists m :: m in s.world.clusters[step.served.value] &&
                        (m.name != d[step.node].name || |s.world.clusters[step.served.value]| > 1)
    ensures Next(d, s, step).phase[step.node] in {Looking, Wiping} && Next(d, s, step).world == s.world
  {
    if step.served.Some? && |s.world.clusters[step.served.value]| >= 1 {
      var first := s.world.clusters[step.served.value][0];
      assert first in s.world.clusters[step.served.value];
    }
  }

  lemma KillTail(d: Deployment, s: State, steps: seq<Step>, t: State, i: NodeId) returns (unlinked: bool)
    requires Shape(d, s) && i in d && s.phase[i] == Killing && Operation(d, s, steps, t, i)
    ensures t == To(s, i, SetHost(s.world, i, Killed(s.world.hosts[i], unlinked)), Idle)
  {
    unlinked := steps[0].unlinked;
  }

  lemma WipeTail(d: Deployment, s: State, steps: seq<Step>, t: State, i: NodeId) returns (wiped: bool, unlinked: bool)
    requires Shape(d, s) && i in d && s.phase[i] == Wiping && Operation(d, s, steps, t, i)
    ensures t == To(s, i, SetHost(s.world, i, Killed(Wiped(s.world.hosts[i], wiped), unlinked)), Idle)
  {
    wiped := steps[0].wiped;
    var h := Wiped(s.world.hosts[i], wiped);
    var s1 := To(s, i, SetHost(s.world, i, h), Killing);
    assert s1 == Next(d, s, steps[0]);
    unlinked := KillTail(d, s1, steps[1..], t, i);
    SetHostTwice(s.world, i, h, Killed(h, unlinked));
    ToTwice(s, i, SetHost(s.world, i, h), Killing, SetHost(s.world, i, Killed(h, unlinked)), Idle);
  }

  function RemovedFrom(w: World, served: Option<ClusterId>, id: string): World
  {
    match MemberRemove(w, served, id)
    case None => w
    case Some(w1) => w1
  }

  lemma RemoveTail(d: Deployment, s: State, steps: seq<Step>, t: State, i: NodeId)
    returns (removed: Option<ClusterId>, wiped: bool, unlinked: bool)
    requires Shape(d, s) && i in d && s.phase[i].Removing? && Operation(d, s, steps, t, i)
    ensures MayServe(s.world, removed)
    ensures var v := RemovedFrom(s.world, removed, s.phase[i].id);
            t == To(s, i, SetHost(v, i, Killed(Wiped(s.world.hosts[i], wiped), unlinked)), Idle)
  {
    removed := steps[0].served;
    var v := RemovedFrom(s.world, removed, s.phase[i].id);
    var s1 := To(s, i, v, Wiping);
    assert s1 == Next(d, s, steps[0]);
    wiped, unlinked := WipeTail(d, s1, steps[1..], t, i);
    ToTwice(s, i, v, Wiping, SetHost(v, i, Killed(Wiped(s.world.hosts[i], wiped), unlinked)), Idle);
  }

  /** From the look-up on: some answers explain the rest. */
  lemma LookTail(d: Deployment, s: State, steps: seq<Step>, t: State, i: NodeId) returns (a: StopAnswers)
    requires Shape(d, s) && i in d && s.phase[i] == Looking && Operation(d, s, steps, t, i)
    ensures a.configured && MayServe(s.world, a.relisted) && MayServe(s.world, a.removed)
    ensures t == To(s, i, SetHost(RemoveSelf(s.world, d[i], a), i, TakenDown(s.world.hosts[i], a)), Idle)
  {
    var relisted := steps[0].served;
    var p := Removing(OwnId(Listed(s.world, relisted), d[i].name));
    var s1 := To(s, i, s.world, p);
    assert s1 == Next(d, s, steps[0]);
    var removed, wiped, unlinked := RemoveTail(d, s1, steps[1..], t, i);
    a := StopAnswers(true, None, relisted, removed, wiped, unlinked);
    ToTwice(s, i, s.world, p, SetHost(RemoveSelf(s.world, d[i], a), i, TakenDown(s.world.hosts[i], a)), Idle);
  }

  /** Going down with or without leaving. */
  lemma GoTail(d: Deployment, s: State, steps: seq<Step>, t: State, i: NodeId) returns (a: StopAnswers)
    requires Shape(d, s) && i in d && s.phase[i] in {Looking, Wiping} && Operation(d, s, steps, t, i)
    ensures a.configured && MayServe(s.world, a.relisted) && MayServe(s.world, a.removed)
    ensures var v := if s.phase[i] == Looking then RemoveSelf(s.world, d[i], a) else s.world;
            t == To(s, i, SetHost(v, i, TakenDown(s.world.hosts[i], a)), Idle)
  {
    if s.phase[i] == Looking {
      a := LookTail(d, s, steps, t, i);
    } else {
      var wiped, unlinked := WipeTail(d, s, steps, t, i);
      a := StopAnswers(true, None, None, None, wiped, unlinked);
    }
  }

  lemma DecideTail(d: Deployment, s: State, steps: seq<Step>, t: State, i: NodeId) returns (a: StopAnswers)
    requires Shape(d, s) && i in d && s.phase[i] == Deciding && Operation(d, s, steps, t, i)
    ensures a.configured && MayServe(s.world, a.decided)
    ensures MayServe(s.world, a.relisted) && MayServe(s.world, a.removed)
    ensures t == To(s, i, Stop(s.world, i, d[i], a).world, Idle)
  {
    var decided := steps[0].served;
    var p := if HadOtherNodes(Listed(s.world, decided), d[i].name) then Looking else Wiping;
    var s1 := To(s, i, s.world, p);
    assert s1 == Next(d, s, steps[0]);
    a := GoTail(d, s1, steps[1..], t, i);
    a := a.(decided := decided);
    ToTwice(s, i, s.world, p, Stop(s.world, i, d[i], a).world, Idle);
  }

  /** Whatever steps a node takes after beginning a Stop, until it is idle again, are a Stop. */
  lemma OnlyStops(d: Deployment, s: State, steps: seq<Step>, t: State, i: NodeId) returns (a: StopAnswers)
    requires Shape(d, s) && i in d && s.phase[i].Idle? && Operation(d, s, steps, t, i) && steps[0] == BeginStop(i)
    ensures a.configured && MayServe(s.world, a.decided)
    ensures MayServe(s.world, a.relisted) && MayServe(s.world, a.removed)
    ensures t == To(s, i, Stop(s.world, i, d[i], a).world, Idle)
  {
    var s1 := To(s, i, s.world, Deciding);
    assert s1 == Next(d, s, steps[0]);
    a := DecideTail(d, s1, steps[1..], t, i);
    ToTwice(s, i, s.world, Deciding, Stop(s.world, i, d[i], a).world, Idle);
  }

  // ---- a Start ----

  /** Answers by what they lead to. */
  function Answers(listed: nat -> Option<ClusterId>, added: Option<ClusterId>, newId: string, launched: Option<Pid>,
                   created: ClusterId, published: bool, synced: bool, written: bool, rollback: StopAnswers)
    : StartAnswers
  {
    StartAnswers(true, listed, added, newId, launched, created, published, true, (k: nat) => synced, written, rollback)
  }

  lemma SyncedAs(synced: bool)
    ensures Verify(true, (k: nat) => synced).synced == synced
  {
    var keys := (k: nat) => synced;
    var v := Verify(true, keys);
    VerdictExact(true, keys, v);
    assert keys(0) == synced && (v.synced ==> keys(v.slept) == synced);
  }

  /** What a Start leaves after the sync. */
  function AfterSync(w: World, i: NodeId, self: Identity, plan: Plan, pid: Pid, synced: bool, written: bool,
                     rollback: StopAnswers): World
    requires i in w.hosts
  {
    if !synced then RollBack(w, i, self, plan, rollback)
    else if written then SetHost(w, i, w.hosts[i].(pidFile := Some(Text.Decimal(pid))))
    else w
  }

  lemma PublishTwice(w: World, c: ClusterId, me: Identity)
    ensures Fleet.Publish(Fleet.Publish(w, c, me), c, me) == Fleet.Publish(w, c, me)
  {
    if c in w.clusters {
      assert Named(Named(w.clusters[c], me), me) == Named(w.clusters[c], me);
      assert w.clusters[c := Named(w.clusters[c], me)][c := Named(w.clusters[c], me)] ==
             w.clusters[c := Named(w.clusters[c], me)];
    }
  }

  lemma WriteTail(d: Deployment, s: State, steps: seq<Step>, t: State, i: NodeId) returns (written: bool)
    requires Shape(d, s) && i in d && s.phase[i].WritingPid? && Operation(d, s, steps, t, i)
    ensures t == To(s, i, if written then SetHost(s.world, i, s.world.hosts[i].(pidFile :=
                            Some(Text.Decimal(s.phase[i].pid)))) else s.world, Idle)
  {
    written := steps[0].written;
  }

  lemma SyncTail(d: Deployment, s: State, steps: seq<Step>, t: State, i: NodeId)
    returns (synced: bool, written: bool, rollback: StopAnswers)
    requires Shape(d, s) && i in d && s.phase[i].Syncing? && Operation(d, s, steps, t, i) && steps[0].Sync?
    ensures var p := s.phase[i];
            t == To(s, i, AfterSync(s.world, i, d[i], p.plan, p.pid, synced, written, rollback), Idle)
  {
    var plan, pid := s.phase[i].plan, s.phase[i].pid;
    synced, written, rollback := steps[0].synced, false, StopAnswers(true, None, None, None, true, true);
    var p := if synced then WritingPid(pid) else if plan.ExistingCluster? then Looking else Wiping;
    var s1 := To(s, i, s.world, p);
    assert s1 == Next(d, s, steps[0]);
    if synced {
      written := WriteTail(d, s1, steps[1..], t, i);
    } else {
      rollback := GoTail(d, s1, steps[1..], t, i);
    }
    ToTwice(s, i, s.world, p, AfterSync(s.world, i, d[i], plan, pid, synced, written, rollback), Idle);
  }

  /** While the sync goes on the name may be published, once or more often. */
  lemma {:induction false} SyncingTail(d: Deployment, s: State, steps: seq<Step>, t: State, i: NodeId, c: ClusterId)
    returns (published: bool, synced: bool, written: bool, rollback: StopAnswers)
    requires Shape(d, s) && i in d && s.phase[i].Syncing? && Operation(d, s, steps, t, i)
    requires s.phase[i].pid in s.world.hosts[i].procs && s.world.hosts[i].procs[s.phase[i].pid] == c
    ensures var w := if published then Fleet.Publish(s.world, c, d[i]) else s.world;
            var p := s.phase[i];
            t == To(s, i, AfterSync(w, i, d[i], p.plan, p.pid, synced, written, rollback), Idle)
    decreases |steps|
  {
    if steps[0].Sync? {
      published := false;
      synced, written, rollback := SyncTail(d, s, steps, t, i);
    } else {
      var s1 := Next(d, s, steps[0]);
      assert s1 == State(Fleet.Publish(s.world, c, d[i]), s.phase);
      published, synced, written, rollback := SyncingTail(d, s1, steps[1..], t, i, c);
      PublishTwice(s.world, c, d[i]);
      published := true;
    }
  }

  lemma LaunchTail(d: Deployment, s: State, steps: seq<Step>, t: State, i: NodeId) returns (a: StartAnswers)
    requires Shape(d, s) && i in d && s.phase[i].Launching? && Operation(d, s, steps, t, i)
    ensures a.configured && t == To(s, i, RestOfStart(s.world, i, d[i], s.phase[i].plan, a), Idle)
  {
    var plan := s.phase[i].plan;
    var nowhere := (k: nat) => None;
    var step := steps[0];
    if step.launched.None? {
      a := Answers(nowhere, None, "", None, step.created, false, true, true,
                   StopAnswers(true, None, None, None, true, true));
    } else {
      var pid, c := step.launched.value, Target(s.world.hosts[i], plan, step.created);
      var v := Fleet.Launch(s.world, i, d[i], plan, pid, step.created, step.newId);
      var s1 := To(s, i, v, Syncing(plan, pid));
      assert s1 == Next(d, s, step);
      var published, synced, written, rollback := SyncingTail(d, s1, steps[1..], t, i, c);
      a := Answers(nowhere, None, step.newId, step.launched, step.created, published, synced, written, rollback);
      FinishAs(s.world, i, d[i], plan, pid, a, synced);
      ToTwice(s, i, v, Syncing(plan, pid), RestOfStart(s.world, i, d[i], plan, a), Idle);
    }
  }

  lemma FinishAs(w: World, i: NodeId, self: Identity, plan: Plan, pid: Pid, a: StartAnswers, synced: bool)
    requires i in w.hosts && a.launched == Some(pid) && a.selfClient && a.keys == ((k: nat) => synced)
    ensures var v := Fleet.Launch(w, i, self, plan, pid, a.created, a.newId);
            var u := if a.published then Fleet.Publish(v, Target(w.hosts[i], plan, a.created), self) else v;
            RestOfStart(w, i, self, plan, a) == AfterSync(u, i, self, plan, pid, synced, a.pidWritten, a.rollback)
  {
    SyncedAs(synced);
  }

  /** The world a Start leaves once its list has ended. */
  function FromList(w: World, i: NodeId, self: Identity, l: ListResult, a: StartAnswers): World
    requires i in w.hosts && (l.prior != [] ==> l.cluster.Some?)
  {
    var plan := PlanFor(l.prior, l.cluster, self);
    if MustAdd(l.prior, self) then
      match MemberAdd(w, a.added, a.newId, self.url)
      case None => w
      case Some(w1) => RestOfStart(w1, i, self, plan, a)
    else RestOfStart(w, i, self, plan, a)
  }

  lemma StartFromList(w: World, i: NodeId, self: Identity, a: StartAnswers)
    requires i in w.hosts && a.configured
    ensures Start(w, i, self, a).world == FromList(w, i, self, ListFrom(w, a.listed, 0), a)
  {
    StartIsPlanAndRest(w, i, self, a);
  }

  /** A launch into an existing cluster uses no new id, and what follows the plan no list and no add. */
  lemma RestIgnores(w: World, i: NodeId, self: Identity, plan: Plan, a: StartAnswers, listed: nat -> Option<ClusterId>,
                    added: Option<ClusterId>, newId: string)
    requires i in w.hosts && (plan.ExistingCluster? || newId == a.newId)
    ensures RestOfStart(w, i, self, plan, a.(listed := listed, added := added, newId := newId)) ==
            RestOfStart(w, i, self, plan, a)
  {
  }

  lemma AddTail(d: Deployment, s: State, steps: seq<Step>, t: State, i: NodeId) returns (a: StartAnswers)
    requires Shape(d, s) && i in d && s.phase[i].Adding? && Operation(d, s, steps, t, i)
    requires MustAdd(s.phase[i].prior, d[i])
    ensures a.configured
    ensures var l := ListResult(0, s.phase[i].prior, Some(s.phase[i].cluster));
            t == To(s, i, FromList(s.world, i, d[i], l, a), Idle)
  {
    var w, prior, c, step := s.world, s.phase[i].prior, s.phase[i].cluster, steps[0];
    var nowhere := (k: nat) => None;
    var plan := PlanFor(prior, Some(c), d[i]);
    if MemberAdd(w, step.served, step.newId, d[i].url).None? {
      a := Answers(nowhere, step.served, step.newId, None, 0, false, true, true,
                   StopAnswers(true, None, None, None, true, true));
    } else {
      var w1 := MemberAdd(w, step.served, step.newId, d[i].url).value;
      var s1 := To(s, i, w1, Launching(plan));
      assert s1 == Next(d, s, step);
      var b := LaunchTail(d, s1, steps[1..], t, i);
      a := b.(listed := nowhere, added := step.served, newId := step.newId);
      RestIgnores(w1, i, d[i], plan, b, nowhere, step.served, step.newId);
      ToTwice(s, i, w1, Launching(plan), RestOfStart(w1, i, d[i], plan, a), Idle);
    }
  }

  lemma {:induction false} ListsAgree(w: World, a: nat -> Option<ClusterId>, b: nat -> Option<ClusterId>, k: nat)
    requires k <= MEMBER_LIST_TRIES && forall j :: k <= j ==> a(j) == b(j)
    ensures ListFrom(w, a, k) == ListFrom(w, b, k)
    decreases MEMBER_LIST_TRIES - k
  {
    if k < MEMBER_LIST_TRIES {
      ListsAgree(w, a, b, k + 1);
    }
  }

  /** The phase a list that has ended leads to. */
  lemma AfterListTail(d: Deployment, s: State, steps: seq<Step>, t: State, i: NodeId, l: ListResult)
    returns (a: StartAnswers)
    requires Shape(d, s) && i in d && Operation(d, s, steps, t, i)
    requires (l.prior != [] ==> l.cluster.Some?) && s.phase[i] == AfterList(l.prior, l.cluster, d[i])
    ensures a.configured && t == To(s, i, FromList(s.world, i, d[i], l, a), Idle)
  {
    if MustAdd(l.prior, d[i]) {
      a := AddTail(d, s, steps, t, i);
    } else {
      a := LaunchTail(d, s, steps, t, i);
    }
  }

  function WithList(a: StartAnswers, k: nat, served: Option<ClusterId>): StartAnswers
  {
    a.(listed := (j: nat) => if j == k then served else a.listed(j))
  }

  lemma ListIgnored(w: World, i: NodeId, self: Identity, l: ListResult, m: ListResult, a: StartAnswers, k: nat,
                    served: Option<ClusterId>)
    requires i in w.hosts && (l.prior != [] ==> l.cluster.Some?) && m.prior == l.prior && m.cluster == l.cluster
    ensures FromList(w, i, self, l, WithList(a, k, served)) == FromList(w, i, self, m, a)
  {
  }

  /** A try that failed changes nothing. */
  lemma Retried(w: World, i: NodeId, self: Identity, b: StartAnswers, k: nat, served: Option<ClusterId>)
    requires i in w.hosts && k + 1 < MEMBER_LIST_TRIES && Listed(w, served).None?
    ensures var a := WithList(b, k, served);
            FromList(w, i, self, ListFrom(w, a.listed, k), a) == FromList(w, i, self, ListFrom(w, b.listed, k + 1), b)
  {
    var a := WithList(b, k, served);
    ListsAgree(w, a.listed, b.listed, k + 1);
    assert ListFrom(w, a.listed, k) == ListFrom(w, a.listed, k + 1);
    ListIgnored(w, i, self, ListFrom(w, a.listed, k), ListFrom(w, b.listed, k + 1), b, k, served);
  }

  /** The list that a last try ends with. */
  function LastTry(w: World, k: nat, served: Option<ClusterId>): ListResult
  {
    if Listed(w, served).Some? then ListResult(k, Listed(w, served).value, served) else ListResult(k + 1, [], None)
  }

  lemma Ended(w: World, i: NodeId, self: Identity, b: StartAnswers, k: nat, served: Option<ClusterId>)
    requires i in w.hosts && k < MEMBER_LIST_TRIES
    requires Listed(w, served).None? ==> k + 1 == MEMBER_LIST_TRIES
    ensures var a := WithList(b, k, served);
            FromList(w, i, self, ListFrom(w, a.listed, k), a) == FromList(w, i, self, LastTry(w, k, served), b)
  {
    var a, l := WithList(b, k, served), LastTry(w, k, served);
    LastList(w, a.listed, k, l);
    ListIgnored(w, i, self, l, l, b, k, served);
  }

  /** A listing node can only list, and goes on from there. */
  lemma ListFirst(d: Deployment, s: State, steps: seq<Step>, t: State, i: NodeId, k: nat)
    returns (served: Option<ClusterId>, p: Phase, s1: State)
    requires Shape(d, s) && i in d && s.phase[i] == Phase.Listing(k) && Operation(d, s, steps, t, i)
    ensures p == ListPhase(s.world, k, served, d[i]) && s1 == To(s, i, s.world, p)
    ensures Listed(s.world, served).None? && k + 1 < MEMBER_LIST_TRIES ==> p == Phase.Listing(k + 1)
    ensures Shape(d, s1) && s1.phase[i] == p && |steps| > 0 && Operation(d, s1, steps[1..], t, i)
  {
    served := steps[0].served;
    p := ListPhase(s.world, k, served, d[i]);
    s1 := To(s, i, s.world, p);
    assert s1 == Next(d, s, steps[0]);
  }

  /** The last try and what follows it. */
  lemma LastTryTail(d: Deployment, s: State, s1: State, steps: seq<Step>, t: State, i: NodeId, k: nat,
                    served: Option<ClusterId>)
    returns (a: StartAnswers)
    requires Shape(d, s) && Shape(d, s1) && i in d && k < MEMBER_LIST_TRIES
    requires Listed(s.world, served).None? ==> k + 1 == MEMBER_LIST_TRIES
    requires s1 == To(s, i, s.world, ListPhase(s.world, k, served, d[i])) && Operation(d, s1, steps, t, i)
    ensures a.configured && t == To(s, i, FromList(s.world, i, d[i], ListFrom(s.world, a.listed, k), a), Idle)
  {
    var b := AfterListTail(d, s1, steps, t, i, LastTry(s.world, k, served));
    a := WithList(b, k, served);
    Ended(s.world, i, d[i], b, k, served);
    ToTwice(s, i, s.world, s1.phase[i], FromList(s.world, i, d[i], ListFrom(s.world, a.listed, k), a), Idle);
  }

  lemma RetryTail(s: State, s1: State, t: State, i: NodeId, self: Identity, k: nat, served: Option<ClusterId>,
                  b: StartAnswers)
    requires i in s.world.hosts && k + 1 < MEMBER_LIST_TRIES && Listed(s.world, served).None?
    requires s1 == To(s, i, s.world, Phase.Listing(k + 1))
    requires t == To(s1, i, FromList(s.world, i, self, ListFrom(s.world, b.listed, k + 1), b), Idle)
    ensures var a := WithList(b, k, served);
            t == To(s, i, FromList(s.world, i, self, ListFrom(s.world, a.listed, k), a), Idle)
  {
    Retried(s.world, i, self, b, k, served);
    ToTwice(s, i, s.world, Phase.Listing(k + 1), t.world, Idle);
  }

  lemma {:induction false} ListTail(d: Deployment, s: State, steps: seq<Step>, t: State, i: NodeId, k: nat)
    returns (a: StartAnswers)
    requires Shape(d, s) && i in d && s.phase[i] == Phase.Listing(k) && k < MEMBER_LIST_TRIES
    requires Operation(d, s, steps, t, i)
    ensures a.configured && t == To(s, i, FromList(s.world, i, d[i], ListFrom(s.world, a.listed, k), a), Idle)
    decreases MEMBER_LIST_TRIES - k
  {
    var served, p, s1 := ListFirst(d, s, steps, t, i, k);
    if Listed(s.world, served).None? && k + 1 < MEMBER_LIST_TRIES {
      var b := ListTail(d, s1, steps[1..], t, i, k + 1);
      a := WithList(b, k, served);
      RetryTail(s, s1, t, i, d[i], k, served, b);
    } else {
      a := LastTryTail(d, s, s1, steps[1..], t, i, k, served);
    }
  }

  lemma LastList(w: World, listed: nat -> Option<ClusterId>, k: nat, l: ListResult)
    requires k < MEMBER_LIST_TRIES
    requires Listed(w, listed(k)).None? ==> k + 1 == MEMBER_LIST_TRIES
    requires l == LastTry(w, k, listed(k))
    ensures ListFrom(w, listed, k) == l
  {
  }

  /** Whatever steps a node takes after beginning a Start, until it is idle again, are a Start. */
  lemma OnlyStarts(d: Deployment, s: State, steps: seq<Step>, t: State, i: NodeId) returns (a: StartAnswers)
    requires Shape(d, s) && i in d && s.phase[i].Idle? && Operation(d, s, steps, t, i) && steps[0] == BeginStart(i)
    ensures a.configured && t == To(s, i, Start(s.world, i, d[i], a).world, Idle)
  {
    var s1 := To(s, i, s.world, Phase.Listing(0));
    assert s1 == Next(d, s, steps[0]);
    a := ListTail(d, s1, steps[1..], t, i, 0);
    StartFromList(s.world, i, d[i], a);
    ToTwice(s, i, s.world, Phase.Listing(0), Start(s.world, i, d[i], a).world, Idle);
  }
}
