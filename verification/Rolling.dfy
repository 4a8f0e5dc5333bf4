/** Serial, failure-free operation: one node at a time stops or starts, and every call succeeds.
    Rolling updates, scale-up and scale-down are such runs. */
module Rolling {
  import opened Wrappers
  import opened Text
  import opened Fleet
  import opened ClusterController
  import opened Application
  import opened Protocol
  import opened Membership
  import opened PeerUrls
  import opened SingleCluster

  // ---- what a node looks like in each phase ----

  /** One process, recorded in the pid file. */
  predicate RunsOnly(h: Host, pid: Pid, c: ClusterId)
  {
    h.procs == map[pid := c] && h.pidFile == Some(Decimal(pid))
  }

  ghost predicate HostUp(h: Host, c: ClusterId) { h.data == Some(c) && exists p: Pid :: RunsOnly(h, p, c) }

  predicate HostDown(h: Host) { h.procs == map[] && h.pidFile.None? && h.data.None? }

  predicate HostStarting(h: Host, pid: Pid, c: ClusterId)
  {
    h.procs == map[pid := c] && h.pidFile.None? && h.data == Some(c)
  }

  ghost predicate HostWiped(h: Host, c: ClusterId) { h.data.None? && exists p: Pid :: RunsOnly(h, p, c) }

  /** Listed under its own name. */
  ghost predicate Published(w: World, c: ClusterId, self: Identity)
  {
    exists m :: Entry(w, c, m) && m.peerUrl == self.url && m.name == self.name
  }

  ghost predicate Up(w: World, i: NodeId, self: Identity, c: ClusterId)
  {
    i in w.hosts && HostUp(w.hosts[i], c) && Published(w, c, self)
  }

  ghost predicate IsDown(w: World, i: NodeId, self: Identity, c: ClusterId)
  {
    i in w.hosts && HostDown(w.hosts[i]) && Lacks(w, c, self.url)
  }

  ghost predicate NodeOk(w: World, i: NodeId, self: Identity, p: Phase, c: ClusterId)
    requires i in w.hosts
  {
    var h := w.hosts[i];
    match p
    case Idle => Up(w, i, self, c) || IsDown(w, i, self, c)
    case Listing(_) => IsDown(w, i, self, c)
    case Adding(prior, cluster) => IsDown(w, i, self, c) && prior != [] && cluster == c
    case Launching(plan) =>
      HostDown(h) && Present(w, c, self.url) && plan.ExistingCluster? && plan.cluster == c
    case Syncing(plan, pid) => HostStarting(h, pid, c) && Present(w, c, self.url)
    case WritingPid(pid) => HostStarting(h, pid, c) && Published(w, c, self)
    case Deciding => Up(w, i, self, c)
    case Looking => Up(w, i, self, c)
    case Removing(id) => HostUp(h, c) && exists m :: Entry(w, c, m) && m.id == id && m.peerUrl == self.url
    case Wiping => HostUp(h, c) && Lacks(w, c, self.url)
    case Killing => HostWiped(h, c) && Lacks(w, c, self.url)
  }

  ghost predicate HasCompany(d: Deployment, s: State, i: NodeId, c: ClusterId)
    requires Shape(d, s)
  {
    exists j :: j in d && j != i && s.phase[j].Idle? && Up(s.world, j, d[j], c)
  }

  ghost predicate AllIdle(d: Deployment, s: State)
    requires Shape(d, s)
  {
    forall i :: i in d ==> s.phase[i].Idle?
  }

  ghost predicate NodesOk(d: Deployment, s: State, c: ClusterId)
    requires Shape(d, s)
  {
    forall i {:trigger NodeOk(s.world, i, d[i], s.phase[i], c)} :: i in d ==> NodeOk(s.world, i, d[i], s.phase[i], c)
  }

  ghost predicate OneBusy(d: Deployment, s: State)
    requires Shape(d, s)
  {
    forall i, j {:trigger s.phase[i], s.phase[j]} ::
      i in d && j in d && !s.phase[i].Idle? && !s.phase[j].Idle? ==> i == j
  }

  ghost predicate BusyHaveCompany(d: Deployment, s: State, c: ClusterId)
    requires Shape(d, s)
  {
    forall i {:trigger HasCompany(d, s, i, c)} :: i in d && !s.phase[i].Idle? ==> HasCompany(d, s, i, c)
  }

  /** One cluster; every node is as its phase says; at most one is busy, and then another one is up. */
  ghost predicate Serial(d: Deployment, s: State, c: ClusterId)
  {
    && Inv(d, s) && UrlsOk(d, s) && s.world.clusters.Keys == {c}
    && NodesOk(d, s, c) && OneBusy(d, s) && BusyHaveCompany(d, s, c)
  }

  /** A step without failures: an operation begins when all is quiet and another node is up, every call
      is answered, every effect takes place, and a node syncs only under its published name. */
  ghost predicate Smooth(d: Deployment, s: State, step: Step, c: ClusterId)
    requires Shape(d, s)
  {
    && step.node in d
    && match step
       case BeginStart(i) => AllIdle(d, s) && IsDown(s.world, i, d[i], c) && HasCompany(d, s, i, c)
       case BeginStop(i) => AllIdle(d, s) && Up(s.world, i, d[i], c) && HasCompany(d, s, i, c)
       case List(_, served) => served == Some(c)
       case Add(_, served, _) => served == Some(c)
       case Launch(_, launched, _, _) => launched.Some?
       case Sync(i, synced) => synced && Published(s.world, c, d[i])
       case WritePid(_, written) => written
       case Decide(_, served) => served == Some(c)
       case Look(_, served) => served == Some(c)
       case Remove(_, served) => served == Some(c)
       case Wipe(_, wiped) => wiped
       case Kill(_, unlinked) => unlinked
       case Publish(_, cluster) => cluster == c
       case Exit(_, _) => false
       case Abort(_) => false
  }

  // ---- other nodes ----

  lemma OtherListing(d: Deployment, w: World, v: World, i: NodeId, j: NodeId, c: ClusterId)
    requires Distinct(d) && i in d && j in d && i != j && Evolves(d, w, v, i)
    ensures Lacks(w, c, d[j].url) ==> Lacks(v, c, d[j].url)
    ensures Present(w, c, d[j].url) ==> Present(v, c, d[j].url)
    ensures Published(w, c, d[j]) ==> Published(v, c, d[j])
  {
    if Lacks(w, c, d[j].url) { LacksStays(d, w, v, i, j, c); }
  }

  /** A step of one node leaves every other node as its phase says. */
  lemma OtherStaysOk(d: Deployment, w: World, v: World, i: NodeId, j: NodeId, p: Phase, c: ClusterId)
    requires Distinct(d) && i in d && j in d && i != j && Evolves(d, w, v, i)
    requires j in w.hosts && j in v.hosts && v.hosts[j] == w.hosts[j]
    requires NodeOk(w, j, d[j], p, c)
    ensures NodeOk(v, j, d[j], p, c)
    ensures Up(w, j, d[j], c) ==> Up(v, j, d[j], c)
  {
    OtherListing(d, w, v, i, j, c);
    if p.Removing? {
      var m :| Entry(w, c, m) && m.id == p.id && m.peerUrl == d[j].url;
      assert Entry(v, c, m);
    }
  }

  // ---- the own node, call by call ----

  lemma AfterSmoothList(w: World, failures: nat, i: NodeId, self: Identity, c: ClusterId)
    requires IsDown(w, i, self, c) && c in w.clusters && w.clusters[c] != []
    ensures var p := ListPhase(w, failures, Some(c), self);
            p.Adding? && NodeOk(w, i, self, p, c)
  {
    assert forall m :: m in w.clusters[c] ==> Entry(w, c, m);
  }

  lemma AfterSmoothAdd(w: World, i: NodeId, self: Identity, c: ClusterId, id: string, prior: seq<Member>)
    requires i in w.hosts && NodeOk(w, i, self, Adding(prior, c), c)
    ensures var v := MemberAdd(w, Some(c), id, self.url);
            v.Some? && i in v.value.hosts && NodeOk(v.value, i, self, Launching(PlanFor(prior, Some(c), self)), c)
  {
    var v := MemberAdd(w, Some(c), id, self.url).value;
    var own := Member(id, "", self.url);
    assert own in v.clusters[c];
    assert Entry(v, c, own);
  }

  lemma AfterSmoothRemove(w: World, i: NodeId, self: Identity, c: ClusterId, id: string)
    requires c in w.clusters && UniqueUrls(w.clusters[c]) && id != "" && i in w.hosts
    requires NodeOk(w, i, self, Removing(id), c)
    ensures var v := MemberRemove(w, Some(c), id);
            v.Some? && i in v.value.hosts && NodeOk(v.value, i, self, Wiping, c)
  {
    var own :| Entry(w, c, own) && own.id == id && own.peerUrl == self.url;
    var v := MemberRemove(w, Some(c), id).value;
    forall m | Entry(w, c, m) && m.peerUrl == self.url ensures m == own {
      var j :| 0 <= j < |w.clusters[c]| && w.clusters[c][j] == m;
      var k :| 0 <= k < |w.clusters[c]| && w.clusters[c][k] == own;
      assert !(j < k) && !(k < j);
    }
  }

  lemma AfterSmoothKill(h: Host, c: ClusterId)
    requires HostWiped(h, c)
    ensures HostDown(Killed(h, true))
  {
    var p: Pid :| RunsOnly(h, p, c);
    DecimalRoundTrip(p);
    assert PidToKill(h) == Some(p);
  }

  lemma AfterSmoothLook(d: Deployment, w: World, i: NodeId, c: ClusterId)
    requires Distinct(d) && EntriesOk(d, w) && i in d && Up(w, i, d[i], c)
    ensures var id := OwnId(Listed(w, Some(c)), d[i].name);
            id != "" && NodeOk(w, i, d[i], Removing(id), c)
  {
    var own :| Entry(w, c, own) && own.peerUrl == d[i].url && own.name == d[i].name;
    assert own in w.clusters[c] && own.name == d[i].name;
    var id := OwnId(Listed(w, Some(c)), d[i].name);
    var m :| m in w.clusters[c] && m.name == d[i].name && m.id == id;
    assert Entry(w, c, m);
    assert Owned(d, m);
  }

  lemma AfterSmoothDecide(d: Deployment, w: World, i: NodeId, j: NodeId, c: ClusterId)
    requires Distinct(d) && i in d && j in d && i != j && Up(w, i, d[i], c) && Up(w, j, d[j], c)
    ensures HadOtherNodes(Listed(w, Some(c)), d[i].name)
  {
    var m :| Entry(w, c, m) && m.peerUrl == d[i].url;
    var n :| Entry(w, c, n) && n.peerUrl == d[j].url;
    assert m in w.clusters[c] && n in w.clusters[c] && m != n;
    TwoElements(w.clusters[c], m, n);
  }

  lemma TwoElements(ms: seq<Member>, m: Member, n: Member)
    requires m in ms && n in ms && m != n
    ensures |ms| > 1
  {
    var j :| 0 <= j < |ms| && ms[j] == m;
    var k :| 0 <= k < |ms| && ms[k] == n;
    assert j != k;
  }

  /** Publishing adds the own name and takes nothing away. */
  lemma AfterPublish(w: World, i: NodeId, self: Identity, p: Phase, c: ClusterId)
    requires i in w.hosts && c in w.clusters && NodeOk(w, i, self, p, c)
    ensures var v := Fleet.Publish(w, c, self);
            i in v.hosts && NodeOk(v, i, self, p, c) && (Present(w, c, self.url) ==> Published(v, c, self))
  {
    var v := Fleet.Publish(w, c, self);
    PublishStatus(w, self, c);
    if p.Removing? {
      var m :| Entry(w, c, m) && m.id == p.id && m.peerUrl == self.url;
      assert Entry(v, c, m.(name := self.name));
    }
  }

  lemma PublishStatus(w: World, self: Identity, c: ClusterId)
    requires c in w.clusters
    ensures var v := Fleet.Publish(w, c, self);
            && (Lacks(w, c, self.url) ==> Lacks(v, c, self.url))
            && (Present(w, c, self.url) ==> Published(v, c, self) && Present(v, c, self.url))
            && (forall m: Member :: m.peerUrl == self.url && Entry(w, c, m) ==> Entry(v, c, m.(name := self.name)))
  {
    EntriesPublished(w, self, c);
    if Lacks(w, c, self.url) { PublishBringsNoUrl(w, self, c, c, self.url); }
    if Present(w, c, self.url) {
      var m :| Entry(w, c, m) && m.peerUrl == self.url;
      assert Entry(Fleet.Publish(w, c, self), c, m.(name := self.name));
    }
  }

  // ---- every step of a serial run ----

  /** A smooth step taken from a good phase. */
  ghost predicate Good(d: Deployment, s: State, step: Step, c: ClusterId)
  {
    && Distinct(d) && Shape(d, s) && EntriesOk(d, s.world) && AllUniqueUrls(s.world) && c in s.world.clusters
    && Enabled(d, s, step) && Smooth(d, s, step, c)
    && NodeOk(s.world, step.node, d[step.node], s.phase[step.node], c)
  }

  ghost predicate StaysGood(d: Deployment, s: State, step: Step, c: ClusterId)
    requires Shape(d, s) && Enabled(d, s, step)
  {
    var t := Next(d, s, step);
    NodeOk(t.world, step.node, d[step.node], t.phase[step.node], c)
  }

  lemma OwnList(d: Deployment, s: State, step: Step, c: ClusterId)
    requires Good(d, s, step, c) && step.List? && s.world.clusters[c] != []
    ensures StaysGood(d, s, step, c)
  {
    AfterSmoothList(s.world, s.phase[step.node].failures, step.node, d[step.node], c);
  }

  lemma OwnAdd(d: Deployment, s: State, step: Step, c: ClusterId)
    requires Good(d, s, step, c) && step.Add?
    ensures StaysGood(d, s, step, c)
  {
    AfterSmoothAdd(s.world, step.node, d[step.node], c, step.newId, s.phase[step.node].prior);
  }

  lemma AfterSmoothLaunch(
      w: World, v: World, i: NodeId, self: Identity, plan: Plan, pid: Pid, created: ClusterId, id: string, c: ClusterId)
    requires i in w.hosts && NodeOk(w, i, self, Launching(plan), c)
    requires v == Fleet.Launch(w, i, self, plan, pid, created, id)
    ensures i in v.hosts && NodeOk(v, i, self, Syncing(plan, pid), c)
  {
    assert v.hosts[i] == WithProcess(w.hosts[i], pid, c);
    assert HostStarting(v.hosts[i], pid, c);
    SameEntries(w, v, c, self);
  }

  lemma OwnLaunch(d: Deployment, s: State, step: Step, c: ClusterId)
    requires Good(d, s, step, c) && step.Launch?
    ensures StaysGood(d, s, step, c)
  {
    var i := step.node;
    AfterSmoothLaunch(s.world, Next(d, s, step).world, i, d[i], s.phase[i].plan, step.launched.value, step.created,
                      step.newId, c);
  }

  lemma SameEntries(w: World, v: World, c: ClusterId, self: Identity)
    requires v.clusters == w.clusters
    ensures Present(w, c, self.url) ==> Present(v, c, self.url)
    ensures Published(w, c, self) ==> Published(v, c, self)
    ensures Lacks(w, c, self.url) ==> Lacks(v, c, self.url)
  {
    assert forall m :: Entry(v, c, m) <==> Entry(w, c, m);
  }

  lemma AfterSmoothWritePid(w: World, v: World, i: NodeId, self: Identity, pid: Pid, c: ClusterId)
    requires i in w.hosts && NodeOk(w, i, self, WritingPid(pid), c)
    requires v == SetHost(w, i, w.hosts[i].(pidFile := Some(Decimal(pid))))
    ensures Up(v, i, self, c)
  {
    assert RunsOnly(v.hosts[i], pid, c);
    SameEntries(w, v, c, self);
  }

  lemma OwnWritePid(d: Deployment, s: State, step: Step, c: ClusterId)
    requires Good(d, s, step, c) && step.WritePid?
    ensures StaysGood(d, s, step, c)
  {
    AfterSmoothWritePid(s.world, Next(d, s, step).world, step.node, d[step.node], s.phase[step.node].pid, c);
  }

  /** Steps that only move on. */
  lemma OwnMove(d: Deployment, s: State, step: Step, c: ClusterId)
    requires Good(d, s, step, c) && (step.BeginStart? || step.BeginStop? || step.Sync?)
    ensures StaysGood(d, s, step, c)
  {
    assert Next(d, s, step).world == s.world;
  }

  lemma DecideStep(d: Deployment, s: State, i: NodeId, c: ClusterId)
    requires Shape(d, s) && Enabled(d, s, Decide(i, Some(c))) && HadOtherNodes(Listed(s.world, Some(c)), d[i].name)
    ensures Next(d, s, Decide(i, Some(c))) == To(s, i, s.world, Looking)
  {
  }

  lemma CompanyIsOther(d: Deployment, s: State, i: NodeId, c: ClusterId)
    requires Distinct(d) && Shape(d, s) && i in d && Up(s.world, i, d[i], c) && HasCompany(d, s, i, c)
    ensures HadOtherNodes(Listed(s.world, Some(c)), d[i].name)
  {
    var j :| j in d && j != i && s.phase[j].Idle? && Up(s.world, j, d[j], c);
    AfterSmoothDecide(d, s.world, i, j, c);
  }

  lemma OwnDecide(d: Deployment, s: State, step: Step, c: ClusterId)
    requires Good(d, s, step, c) && step.Decide? && HasCompany(d, s, step.node, c)
    ensures StaysGood(d, s, step, c)
  {
    CompanyIsOther(d, s, step.node, c);
    DecideStep(d, s, step.node, c);
  }

  lemma OwnLook(d: Deployment, s: State, step: Step, c: ClusterId)
    requires Good(d, s, step, c) && step.Look?
    ensures StaysGood(d, s, step, c)
  {
    AfterSmoothLook(d, s.world, step.node, c);
    assert Next(d, s, step).world == s.world;
  }

  lemma OwnRemove(d: Deployment, s: State, step: Step, c: ClusterId)
    requires Good(d, s, step, c) && step.Remove?
    ensures StaysGood(d, s, step, c)
  {
    var id := s.phase[step.node].id;
    var own :| Entry(s.world, c, own) && own.id == id && own.peerUrl == d[step.node].url;
    AfterSmoothRemove(s.world, step.node, d[step.node], c, id);
  }

  lemma AfterSmoothWipe(w: World, v: World, i: NodeId, self: Identity, c: ClusterId)
    requires i in w.hosts && NodeOk(w, i, self, Wiping, c) && v == SetHost(w, i, Wiped(w.hosts[i], true))
    ensures NodeOk(v, i, self, Killing, c)
  {
    var p: Pid :| RunsOnly(w.hosts[i], p, c);
    assert RunsOnly(v.hosts[i], p, c);
    SameEntries(w, v, c, self);
  }

  lemma OwnWipe(d: Deployment, s: State, step: Step, c: ClusterId)
    requires Good(d, s, step, c) && step.Wipe?
    ensures StaysGood(d, s, step, c)
  {
    AfterSmoothWipe(s.world, Next(d, s, step).world, step.node, d[step.node], c);
  }

  lemma AfterSmoothKillIn(w: World, v: World, i: NodeId, self: Identity, c: ClusterId)
    requires i in w.hosts && NodeOk(w, i, self, Killing, c) && v == SetHost(w, i, Killed(w.hosts[i], true))
    ensures NodeOk(v, i, self, Idle, c)
  {
    AfterSmoothKill(w.hosts[i], c);
    SameEntries(w, v, c, self);
  }

  lemma OwnKill(d: Deployment, s: State, step: Step, c: ClusterId)
    requires Good(d, s, step, c) && step.Kill?
    ensures StaysGood(d, s, step, c)
  {
    AfterSmoothKillIn(s.world, Next(d, s, step).world, step.node, d[step.node], c);
  }

  lemma OwnPublish(d: Deployment, s: State, step: Step, c: ClusterId)
    requires Good(d, s, step, c) && step.Publish?
    ensures StaysGood(d, s, step, c)
  {
    AfterPublish(s.world, step.node, d[step.node], s.phase[step.node], c);
  }

  /** The own node is as its phase says after every smooth step. */
  lemma OwnStaysOk(d: Deployment, s: State, step: Step, c: ClusterId)
    requires Good(d, s, step, c)
    requires step.List? || step.Decide? ==> s.world.clusters[c] != [] && HasCompany(d, s, step.node, c)
    ensures StaysGood(d, s, step, c)
  {
    match step {
      case List(_, _) => OwnList(d, s, step, c);
      case Add(_, _, _) => OwnAdd(d, s, step, c);
      case Launch(_, _, _, _) => OwnLaunch(d, s, step, c);
      case WritePid(_, _) => OwnWritePid(d, s, step, c);
      case Decide(_, _) => OwnDecide(d, s, step, c);
      case Look(_, _) => OwnLook(d, s, step, c);
      case Remove(_, _) => OwnRemove(d, s, step, c);
      case Wipe(_, _) => OwnWipe(d, s, step, c);
      case Kill(_, _) => OwnKill(d, s, step, c);
      case Publish(_, _) => OwnPublish(d, s, step, c);
      case BeginStart(_) => OwnMove(d, s, step, c);
      case BeginStop(_) => OwnMove(d, s, step, c);
      case Sync(_, _) => OwnMove(d, s, step, c);
    }
  }

  lemma ClusterNotEmpty(d: Deployment, s: State, i: NodeId, c: ClusterId)
    requires Shape(d, s) && HasCompany(d, s, i, c)
    ensures c in s.world.clusters && s.world.clusters[c] != []
  {
    var j :| j in d && j != i && s.phase[j].Idle? && Up(s.world, j, d[j], c);
    var m :| Entry(s.world, c, m) && m.peerUrl == d[j].url;
  }

  lemma NodesStayOk(d: Deployment, s: State, t: State, i: NodeId, c: ClusterId)
    requires Distinct(d) && Shape(d, s) && Shape(d, t) && i in d && Evolves(d, s.world, t.world, i)
    requires NodesOk(d, s, c) && NodeOk(t.world, i, d[i], t.phase[i], c)
    requires OthersSame(d, s, t, i)
    ensures NodesOk(d, t, c)
  {
    forall j | j in d ensures NodeOk(t.world, j, d[j], t.phase[j], c) {
      if j != i {
        assert NodeOk(s.world, j, d[j], s.phase[j], c);
        OtherStaysOk(d, s.world, t.world, i, j, s.phase[j], c);
      }
    }
  }

  ghost predicate OthersSame(d: Deployment, s: State, t: State, i: NodeId)
    requires Shape(d, s) && Shape(d, t)
  {
    forall j :: j in d && j != i ==> t.world.hosts[j] == s.world.hosts[j] && t.phase[j] == s.phase[j]
  }

  /** A node that is up stays up while another one takes a step. */
  lemma OtherStaysUp(d: Deployment, w: World, v: World, i: NodeId, j: NodeId, c: ClusterId)
    requires Distinct(d) && i in d && j in d && i != j && Evolves(d, w, v, i)
    requires j in v.hosts && Up(w, j, d[j], c) && v.hosts[j] == w.hosts[j]
    ensures Up(v, j, d[j], c)
  {
    OtherListing(d, w, v, i, j, c);
  }

  /** The node that is up while `b` is busy stays up. */
  lemma CompanyStays(d: Deployment, s: State, t: State, i: NodeId, b: NodeId, c: ClusterId)
    requires Distinct(d) && Shape(d, s) && Shape(d, t) && i in d && b in d && Evolves(d, s.world, t.world, i)
    requires HasCompany(d, s, b, c) && OthersSame(d, s, t, i)
    requires b != i ==> t.phase[i] == s.phase[i] && (Up(s.world, i, d[i], c) ==> Up(t.world, i, d[i], c))
    ensures HasCompany(d, t, b, c)
  {
    var j :| j in d && j != b && s.phase[j].Idle? && Up(s.world, j, d[j], c);
    if j != i { OtherStaysUp(d, s.world, t.world, i, j, c); }
    assert t.phase[j].Idle? && Up(t.world, j, d[j], c);
  }

  lemma OwnStepCompany(d: Deployment, s: State, t: State, i: NodeId, c: ClusterId)
    requires Distinct(d) && Shape(d, s) && Shape(d, t) && i in d && Evolves(d, s.world, t.world, i)
    requires OthersSame(d, s, t, i) && HasCompany(d, s, i, c)
    requires forall j :: j in d && j != i ==> s.phase[j].Idle?
    ensures OneBusy(d, t) && BusyHaveCompany(d, t, c)
  {
    CompanyStays(d, s, t, i, i, c);
  }

  lemma PublishCompany(d: Deployment, s: State, t: State, i: NodeId, c: ClusterId)
    requires Distinct(d) && Shape(d, s) && Shape(d, t) && i in d && Evolves(d, s.world, t.world, i)
    requires OneBusy(d, s) && BusyHaveCompany(d, s, c) && t.phase == s.phase && t.world.hosts == s.world.hosts
    requires Up(s.world, i, d[i], c) ==> Up(t.world, i, d[i], c)
    ensures OneBusy(d, t) && BusyHaveCompany(d, t, c)
  {
    forall b | b in d && !t.phase[b].Idle? ensures HasCompany(d, t, b, c) {
      CompanyStays(d, s, t, i, b, c);
    }
  }

  lemma SmoothStepGood(d: Deployment, s: State, step: Step, c: ClusterId)
    requires Serial(d, s, c) && Enabled(d, s, step) && Smooth(d, s, step, c)
    ensures Good(d, s, step, c) && SameServer(s, step) && !Founds(s, step)
  {
    assert NodeOk(s.world, step.node, d[step.node], s.phase[step.node], c);
  }

  lemma BusyStepHasCompany(d: Deployment, s: State, step: Step, c: ClusterId)
    requires Serial(d, s, c) && Enabled(d, s, step) && Smooth(d, s, step, c) && !step.Publish?
    ensures HasCompany(d, s, step.node, c) && s.world.clusters[c] != []
    ensures forall j :: j in d && j != step.node ==> s.phase[j].Idle?
  {
    var i := step.node;
    if step.BeginStart? || step.BeginStop? {
      assert AllIdle(d, s);
    } else {
      assert !s.phase[i].Idle?;
    }
    ClusterNotEmpty(d, s, i, c);
  }

  lemma PublishKeepsUp(d: Deployment, s: State, step: Step, c: ClusterId)
    requires Shape(d, s) && Enabled(d, s, step) && step == Step.Publish(step.node, c)
    ensures Next(d, s, step).phase == s.phase && Next(d, s, step).world.hosts == s.world.hosts
    ensures Up(s.world, step.node, d[step.node], c) ==> Up(Next(d, s, step).world, step.node, d[step.node], c)
  {
    PublishStatus(s.world, d[step.node], c);
    assert Published(s.world, c, d[step.node]) ==> Present(s.world, c, d[step.node].url);
  }

  lemma SmoothStepCompany(d: Deployment, s: State, step: Step, c: ClusterId)
    requires Serial(d, s, c) && Enabled(d, s, step) && Smooth(d, s, step, c)
    ensures OneBusy(d, Next(d, s, step)) && BusyHaveCompany(d, Next(d, s, step), c)
  {
    StepEvolves(d, s, step);
    OtherNodesUntouched(d, s, step);
    if step.Publish? {
      PublishKeepsUp(d, s, step, c);
      PublishCompany(d, s, Next(d, s, step), step.node, c);
    } else {
      BusyStepHasCompany(d, s, step, c);
      OwnStepCompany(d, s, Next(d, s, step), step.node, c);
    }
  }

  lemma SmoothStepNodes(d: Deployment, s: State, step: Step, c: ClusterId)
    requires Serial(d, s, c) && Enabled(d, s, step) && Smooth(d, s, step, c)
    ensures NodesOk(d, Next(d, s, step), c)
  {
    SmoothStepGood(d, s, step, c);
    StepEvolves(d, s, step);
    OtherNodesUntouched(d, s, step);
    if !step.Publish? { BusyStepHasCompany(d, s, step, c); }
    OwnStaysOk(d, s, step, c);
    NodesStayOk(d, s, Next(d, s, step), step.node, c);
  }

  lemma StepStaysSerial(d: Deployment, s: State, step: Step, c: ClusterId)
    requires Serial(d, s, c) && Enabled(d, s, step) && Smooth(d, s, step, c)
    ensures Serial(d, Next(d, s, step), c)
  {
    SmoothStepGood(d, s, step, c);
    StepKeepsInv(d, s, step);
    StepKeepsUrls(d, s, step);
    StepCreates(d, s, step);
    SmoothStepNodes(d, s, step, c);
    SmoothStepCompany(d, s, step, c);
  }

  ghost function SmoothIn(d: Deployment, c: ClusterId): Condition
  {
    (s: State, step: Step) => Shape(d, s) && Smooth(d, s, step, c)
  }

  lemma {:induction false} SmoothRunStaysSerial(d: Deployment, s: State, steps: seq<Step>, t: State, c: ClusterId)
    requires Serial(d, s, c) && Run(d, s, steps, t) && Each(d, s, steps, SmoothIn(d, c))
    ensures Serial(d, t, c)
    decreases |steps|
  {
    if steps != [] {
      StepStaysSerial(d, s, steps[0], c);
      SmoothRunStaysSerial(d, Next(d, s, steps[0]), steps[1..], t, c);
    }
  }
}
