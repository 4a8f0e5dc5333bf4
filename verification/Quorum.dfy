/** Quorum and membership size in serial, failure-free operation. */
module Quorum {
  import opened Wrappers
  import opened Fleet
  import opened Protocol
  import opened Membership
  import opened PeerUrls
  import opened SingleCluster
  import opened Rolling

  ghost predicate MemberRuns(d: Deployment, w: World, c: ClusterId, m: Member)
  {
    exists i :: i in d && i in w.hosts && d[i].url == m.peerUrl && RunsIn(w.hosts[i], c)
  }

  ghost function RunningMembers(d: Deployment, w: World, c: ClusterId, ms: seq<Member>): nat
  {
    if ms == [] then 0
    else (if MemberRuns(d, w, c, ms[0]) then 1 else 0) + RunningMembers(d, w, c, ms[1..])
  }

  /** More than half of the listed members run. */
  ghost predicate HasQuorum(d: Deployment, w: World, c: ClusterId)
    requires c in w.clusters
  {
    RunningMembers(d, w, c, w.clusters[c]) >= |w.clusters[c]| / 2 + 1
  }

  ghost predicate SomeLaunching(d: Deployment, s: State)
    requires Shape(d, s)
  {
    exists i :: i in d && s.phase[i].Launching?
  }

  lemma {:induction false} AllRun(d: Deployment, w: World, c: ClusterId, ms: seq<Member>)
    requires forall m :: m in ms ==> MemberRuns(d, w, c, m)
    ensures RunningMembers(d, w, c, ms) == |ms|
  {
    if ms != [] {
      assert ms[0] in ms && forall m :: m in ms[1..] ==> m in ms;
      AllRun(d, w, c, ms[1..]);
    }
  }

  lemma {:induction false} AllButOneRun(d: Deployment, w: World, c: ClusterId, ms: seq<Member>, url: string)
    requires UniqueUrls(ms) && HasUrl(ms, url)
    requires forall m :: m in ms ==> (MemberRuns(d, w, c, m) <==> m.peerUrl != url)
    ensures RunningMembers(d, w, c, ms) == |ms| - 1
  {
    assert ms == [ms[0]] + ms[1..];
    assert forall m :: m in ms[1..] ==> m in ms;
    if ms[0].peerUrl == url {
      forall m | m in ms[1..] ensures MemberRuns(d, w, c, m) {
        var k :| 0 <= k < |ms[1..]| && ms[1..][k] == m;
        assert ms[0].peerUrl != ms[k + 1].peerUrl;
      }
      AllRun(d, w, c, ms[1..]);
    } else {
      assert HasUrl(ms[1..], url);
      AllButOneRun(d, w, c, ms[1..], url);
    }
  }

  lemma HostRuns(h: Host, c: ClusterId)
    ensures HostUp(h, c) ==> RunsIn(h, c)
    ensures forall pid :: HostStarting(h, pid, c) ==> RunsIn(h, c)
    ensures HostDown(h) ==> !RunsIn(h, c)
  {
    if HostUp(h, c) {
      var p: Pid :| RunsOnly(h, p, c);
      assert h.procs[p] == c;
    }
    forall pid | HostStarting(h, pid, c) ensures RunsIn(h, c) {
      assert h.procs[pid] == c;
    }
  }

  /** A listed node runs, except between its add and its launch. */
  lemma ListedNodeRuns(w: World, i: NodeId, self: Identity, p: Phase, c: ClusterId)
    requires i in w.hosts && NodeOk(w, i, self, p, c) && Present(w, c, self.url)
    ensures RunsIn(w.hosts[i], c) <==> !p.Launching?
  {
    HostRuns(w.hosts[i], c);
    assert !Lacks(w, c, self.url);
  }

  lemma EntryRuns(d: Deployment, s: State, c: ClusterId, m: Member, i: NodeId)
    requires Serial(d, s, c) && Entry(s.world, c, m) && i in d && m.peerUrl == d[i].url
    ensures MemberRuns(d, s.world, c, m) <==> !s.phase[i].Launching?
  {
    assert NodeOk(s.world, i, d[i], s.phase[i], c);
    ListedNodeRuns(s.world, i, d[i], s.phase[i], c);
    assert forall j :: j in d && d[j].url == m.peerUrl ==> j == i;
  }

  lemma OwnerOf(d: Deployment, w: World, c: ClusterId, m: Member) returns (i: NodeId)
    requires EntriesOk(d, w) && Entry(w, c, m)
    ensures i in d && m.peerUrl == d[i].url
  {
    assert Owned(d, m);
    i :| i in d && m.peerUrl == d[i].url;
  }

  ghost predicate LaunchingUrl(d: Deployment, s: State, url: string)
    requires Shape(d, s)
  {
    exists i :: i in d && s.phase[i].Launching? && d[i].url == url
  }

  lemma EntriesRun(d: Deployment, s: State, c: ClusterId)
    requires Serial(d, s, c)
    ensures forall m :: m in s.world.clusters[c] ==>
              (MemberRuns(d, s.world, c, m) <==> !LaunchingUrl(d, s, m.peerUrl))
  {
    forall m | m in s.world.clusters[c]
      ensures MemberRuns(d, s.world, c, m) <==> !LaunchingUrl(d, s, m.peerUrl)
    {
      assert Entry(s.world, c, m);
      var i := OwnerOf(d, s.world, c, m);
      EntryRuns(d, s, c, m, i);
      assert forall j :: j in d && d[j].url == m.peerUrl ==> j == i;
    }
  }

  lemma LaunchingIsListed(d: Deployment, s: State, c: ClusterId, b: NodeId)
    requires Serial(d, s, c) && b in d && s.phase[b].Launching?
    ensures Present(s.world, c, d[b].url) && HasUrl(s.world.clusters[c], d[b].url)
    ensures forall url :: LaunchingUrl(d, s, url) <==> url == d[b].url
  {
    assert NodeOk(s.world, b, d[b], s.phase[b], c);
    var own :| Entry(s.world, c, own) && own.peerUrl == d[b].url;
    assert own in s.world.clusters[c];
    assert OneBusy(d, s);
  }

  lemma RunningExactly(d: Deployment, s: State, c: ClusterId)
    requires Serial(d, s, c)
    ensures RunningMembers(d, s.world, c, s.world.clusters[c]) ==
            |s.world.clusters[c]| - if SomeLaunching(d, s) then 1 else 0
  {
    EntriesRun(d, s, c);
    if b :| b in d && s.phase[b].Launching? {
      LaunchingIsListed(d, s, c, b);
      assert UniqueUrls(s.world.clusters[c]);
      AllButOneRun(d, s.world, c, s.world.clusters[c], d[b].url);
    } else {
      AllRun(d, s.world, c, s.world.clusters[c]);
    }
  }

  /** In every state of serial operation a quorum of the listed members runs, exactly when there is a
      member, and at least three while one is listed but not yet launched. */
  lemma QuorumExactly(d: Deployment, s: State, c: ClusterId)
    requires Serial(d, s, c)
    ensures HasQuorum(d, s.world, c)
            <==> |s.world.clusters[c]| >= if SomeLaunching(d, s) then 3 else 1
  {
    RunningExactly(d, s, c);
  }

  // ---- runs in which a Start begins with two members ----

  /** Enough members for what the busy node is about to do. */
  ghost predicate Roomy(d: Deployment, s: State, c: ClusterId)
    requires Shape(d, s)
  {
    && c in s.world.clusters && s.world.clusters[c] != []
    && forall i :: i in d ==> |s.world.clusters[c]| >= Needed(s.phase[i])
  }

  function Needed(p: Phase): nat
  {
    if p.Launching? then 3 else if p.Listing? || p.Adding? then 2 else 0
  }

  lemma OtherSize(d: Deployment, s: State, step: Step, c: ClusterId)
    requires Shape(d, s) && Enabled(d, s, step) && c in s.world.clusters && !Founds(s, step)
    requires !step.Add? && !step.Remove?
    ensures var v := Next(d, s, step).world; c in v.clusters && |v.clusters[c]| == |s.world.clusters[c]|
  {
  }

  lemma RemoveSize(d: Deployment, s: State, step: Step, c: ClusterId)
    requires Good(d, s, step, c) && step.Remove?
    ensures var v := Next(d, s, step).world; c in v.clusters && |v.clusters[c]| == |s.world.clusters[c]| - 1
  {
    var ms, p := s.world.clusters[c], s.phase[step.node];
    var m :| Entry(s.world, c, m) && m.id == p.id && m.peerUrl == d[step.node].url;
    WithoutIdUniqueIds(ms, p.id);
    assert m in ms && p.id != "";
  }

  lemma SizeChange(d: Deployment, s: State, step: Step, c: ClusterId)
    requires Good(d, s, step, c) && !Founds(s, step)
    ensures c in Next(d, s, step).world.clusters
    ensures |Next(d, s, step).world.clusters[c]| ==
            |s.world.clusters[c]| + if step.Add? then 1 else if step.Remove? then -1 else 0
  {
    if step.Remove? {
      RemoveSize(d, s, step, c);
    } else if !step.Add? {
      OtherSize(d, s, step, c);
    }
  }

  lemma NeededChange(d: Deployment, s: State, step: Step, c: ClusterId)
    requires Shape(d, s) && Enabled(d, s, step) && !step.List?
    ensures var p, q := s.phase[step.node], Next(d, s, step).phase[step.node];
            Needed(q) <= if step.BeginStart? then 2 else Needed(p) + if step.Add? then 1 else 0
  {
  }

  lemma NeededAfterList(d: Deployment, s: State, step: Step, c: ClusterId)
    requires Good(d, s, step, c) && step.List? && s.world.clusters[c] != []
    ensures Needed(Next(d, s, step).phase[step.node]) == 2
  {
    AfterSmoothList(s.world, s.phase[step.node].failures, step.node, d[step.node], c);
  }

  lemma RoomyCarriesOver(d: Deployment, s: State, t: State, i: NodeId, c: ClusterId)
    requires Shape(d, s) && Shape(d, t) && i in d && OthersSame(d, s, t, i) && Roomy(d, s, c)
    requires c in t.world.clusters && t.world.clusters[c] != [] && |t.world.clusters[c]| >= Needed(t.phase[i])
    requires |t.world.clusters[c]| >= |s.world.clusters[c]| || forall j :: j in d && j != i ==> s.phase[j].Idle?
    ensures Roomy(d, t, c)
  {
    forall j | j in d ensures |t.world.clusters[c]| >= Needed(t.phase[j]) {
      assert |s.world.clusters[c]| >= Needed(s.phase[j]);
    }
  }

  lemma RemoveKeepsSome(d: Deployment, s: State, step: Step, c: ClusterId)
    requires Serial(d, s, c) && Enabled(d, s, step) && Smooth(d, s, step, c) && step.Remove?
    ensures c in Next(d, s, step).world.clusters && Next(d, s, step).world.clusters[c] != []
    ensures forall j :: j in d && j != step.node ==> s.phase[j].Idle?
  {
    BusyStepHasCompany(d, s, step, c);
    StepEvolves(d, s, step);
    OtherNodesUntouched(d, s, step);
    CompanyStays(d, s, Next(d, s, step), step.node, step.node, c);
    ClusterNotEmpty(d, Next(d, s, step), step.node, c);
  }

  lemma StepStaysRoomy(d: Deployment, s: State, step: Step, c: ClusterId)
    requires Serial(d, s, c) && Enabled(d, s, step) && Smooth(d, s, step, c) && Roomy(d, s, c)
    requires step.BeginStart? ==> |s.world.clusters[c]| >= 2
    ensures Roomy(d, Next(d, s, step), c)
  {
    SmoothStepGood(d, s, step, c);
    SizeChange(d, s, step, c);
    OtherNodesUntouched(d, s, step);
    if step.List? { NeededAfterList(d, s, step, c); } else { NeededChange(d, s, step, c); }
    if step.Remove? { RemoveKeepsSome(d, s, step, c); }
    assert |s.world.clusters[c]| >= Needed(s.phase[step.node]);
    RoomyCarriesOver(d, s, Next(d, s, step), step.node, c);
  }

  /** Every Start begins with at least two members. */
  ghost function StartsWithTwo(c: ClusterId): Condition
  {
    (s: State, step: Step) => step.BeginStart? ==> c in s.world.clusters && |s.world.clusters[c]| >= 2
  }

  /** Quorum in every state of every such run: rolling updates, scale-up and scale-down in any order. */
  lemma {:induction false} QuorumThroughout(d: Deployment, s: State, steps: seq<Step>, t: State, c: ClusterId)
    requires Serial(d, s, c) && Roomy(d, s, c)
    requires Run(d, s, steps, t) && Each(d, s, steps, SmoothIn(d, c)) && Each(d, s, steps, StartsWithTwo(c))
    ensures Serial(d, t, c) && Roomy(d, t, c) && HasQuorum(d, t.world, c)
    decreases |steps|
  {
    if steps == [] {
      QuorumExactly(d, t, c);
      if SomeLaunching(d, t) {
        var i :| i in d && t.phase[i].Launching?;
        assert Needed(t.phase[i]) == 3;
      }
    } else {
      StepStaysSerial(d, s, steps[0], c);
      StepStaysRoomy(d, s, steps[0], c);
      QuorumThroughout(d, Next(d, s, steps[0]), steps[1..], t, c);
    }
  }

  /** A Start that begins with one member loses the quorum with its add. */
  lemma StartFromOneLosesQuorum(d: Deployment, s: State, step: Step, c: ClusterId)
    requires Serial(d, s, c) && Enabled(d, s, step) && Smooth(d, s, step, c)
    requires step.Add? && |s.world.clusters[c]| == 1
    ensures !HasQuorum(d, Next(d, s, step).world, c)
  {
    SmoothStepGood(d, s, step, c);
    StepStaysSerial(d, s, step, c);
    AddedThenLaunching(d, s, step, c);
    QuorumExactly(d, Next(d, s, step), c);
  }

  lemma AddedThenLaunching(d: Deployment, s: State, step: Step, c: ClusterId)
    requires Shape(d, s) && Enabled(d, s, step) && step.Add? && step.served == Some(c)
    ensures SomeLaunching(d, Next(d, s, step)) && c in Next(d, s, step).world.clusters
    ensures |Next(d, s, step).world.clusters[c]| == |s.world.clusters[c]| + 1
  {
    assert Next(d, s, step).phase[step.node].Launching?;
  }

  // ---- who is listed ----

  ghost function ListedNodes(d: Deployment, ms: seq<Member>): set<NodeId>
  {
    set i | i in d && HasUrl(ms, d[i].url)
  }

  lemma OneMoreOwner(d: Deployment, ms: seq<Member>, i: NodeId)
    requires Distinct(d) && UniqueUrls(ms) && ms != [] && i in d && ms[0].peerUrl == d[i].url
    ensures i !in ListedNodes(d, ms[1..]) && ListedNodes(d, ms) == ListedNodes(d, ms[1..]) + {i}
  {
    var rest := ms[1..];
    forall k | 0 <= k < |rest| ensures rest[k].peerUrl != d[i].url {
      assert ms[0].peerUrl != ms[k + 1].peerUrl;
    }
    assert forall m :: m in ms <==> m == ms[0] || m in rest;
  }

  lemma {:induction false} CountOwners(d: Deployment, ms: seq<Member>)
    requires Distinct(d) && UniqueUrls(ms) && forall m :: m in ms ==> Owned(d, m)
    ensures |ms| == |ListedNodes(d, ms)|
  {
    if ms == [] {
      assert ListedNodes(d, ms) == {};
    } else {
      assert ms[0] in ms && forall m :: m in ms[1..] ==> m in ms;
      var i :| i in d && ms[0].peerUrl == d[i].url;
      OneMoreOwner(d, ms, i);
      CountOwners(d, ms[1..]);
    }
  }

  lemma ListedNodesSize(d: Deployment, s: State, c: ClusterId)
    requires Serial(d, s, c)
    ensures |s.world.clusters[c]| == |ListedNodes(d, s.world.clusters[c])|
  {
    assert forall m :: m in s.world.clusters[c] ==> Entry(s.world, c, m);
    CountOwners(d, s.world.clusters[c]);
  }

  ghost predicate IdleAndUp(d: Deployment, s: State, i: NodeId, c: ClusterId)
    requires Shape(d, s) && i in d
  {
    s.phase[i].Idle? && Up(s.world, i, d[i], c)
  }

  lemma UpIsListed(d: Deployment, s: State, i: NodeId, c: ClusterId)
    requires Shape(d, s) && i in d && c in s.world.clusters && Present(s.world, c, d[i].url)
    ensures i in ListedNodes(d, s.world.clusters[c])
  {
    var m :| Entry(s.world, c, m) && m.peerUrl == d[i].url;
    assert m in s.world.clusters[c];
  }

  // ---- rolling updates ----

  /** All nodes but at most one are up: a node is taken down only when every node is up. */
  ghost predicate AllButOneUp(d: Deployment, s: State, c: ClusterId)
    requires Shape(d, s)
  {
    forall i, j {:trigger IdleAndUp(d, s, i, c), IdleAndUp(d, s, j, c)} ::
      i in d && j in d && !IdleAndUp(d, s, i, c) && !IdleAndUp(d, s, j, c) ==> i == j
  }

  ghost predicate AllUp(d: Deployment, s: State, c: ClusterId)
    requires Shape(d, s)
  {
    forall i {:trigger IdleAndUp(d, s, i, c)} :: i in d ==> IdleAndUp(d, s, i, c)
  }

  lemma RollingCarriesOver(d: Deployment, s: State, t: State, i: NodeId, c: ClusterId)
    requires Distinct(d) && Shape(d, s) && Shape(d, t) && i in d && Evolves(d, s.world, t.world, i)
    requires OthersSame(d, s, t, i) && AllButOneUp(d, s, c)
    requires if IdleAndUp(d, s, i, c) then AllUp(d, s, c) || IdleAndUp(d, t, i, c) else true
    ensures AllButOneUp(d, t, c)
  {
    forall j | j in d && j != i && IdleAndUp(d, s, j, c) ensures IdleAndUp(d, t, j, c) {
      OtherStaysUp(d, s.world, t.world, i, j, c);
    }
  }

  lemma NotIdleAndUp(d: Deployment, s: State, step: Step, c: ClusterId)
    requires Shape(d, s) && Enabled(d, s, step) && Smooth(d, s, step, c) && !step.Publish? && !step.BeginStop?
    ensures !IdleAndUp(d, s, step.node, c)
  {
    assert Published(s.world, c, d[step.node]) ==> !Lacks(s.world, c, d[step.node].url);
  }

  lemma StepStaysRolling(d: Deployment, s: State, step: Step, c: ClusterId)
    requires Serial(d, s, c) && Enabled(d, s, step) && Smooth(d, s, step, c) && AllButOneUp(d, s, c)
    requires step.BeginStop? ==> AllUp(d, s, c)
    ensures AllButOneUp(d, Next(d, s, step), c)
  {
    StepEvolves(d, s, step);
    OtherNodesUntouched(d, s, step);
    var i, t := step.node, Next(d, s, step);
    if step.Publish? {
      PublishKeepsUp(d, s, step, c);
    } else if !step.BeginStop? {
      NotIdleAndUp(d, s, step, c);
    }
    RollingCarriesOver(d, s, t, i, c);
  }

  lemma AllButOne(s: set<NodeId>, t: set<NodeId>)
    requires s <= t && forall x, y :: x in t && x !in s && y in t && y !in s ==> x == y
    ensures |s| == if s == t then |t| else |t| - 1
  {
    if x :| x in t && x !in s {
      assert s == t - {x};
    } else {
      assert s == t;
    }
  }

  lemma UpAreListed(d: Deployment, s: State, c: ClusterId)
    requires Shape(d, s) && c in s.world.clusters
    ensures forall i :: i in d && IdleAndUp(d, s, i, c) ==> i in ListedNodes(d, s.world.clusters[c])
  {
    forall i | i in d && IdleAndUp(d, s, i, c) ensures i in ListedNodes(d, s.world.clusters[c]) {
      UpIsListed(d, s, i, c);
    }
  }

  lemma ListedInRolling(d: Deployment, s: State, c: ClusterId)
    requires Shape(d, s) && c in s.world.clusters && AllButOneUp(d, s, c)
    ensures var listed := ListedNodes(d, s.world.clusters[c]);
            |listed| == if listed == d.Keys then |d.Keys| else |d.Keys| - 1
  {
    UpAreListed(d, s, c);
    AllButOne(ListedNodes(d, s.world.clusters[c]), d.Keys);
  }

  /** During a rolling update of n nodes, n or n - 1 are listed, and only a node that is in its own turn
      is missing. */
  lemma RollingSize(d: Deployment, s: State, c: ClusterId)
    requires Serial(d, s, c) && AllButOneUp(d, s, c)
    ensures |s.world.clusters[c]| ==
            if forall i :: i in d ==> HasUrl(s.world.clusters[c], d[i].url) then |d.Keys| else |d.Keys| - 1
    ensures forall i :: i in d && !HasUrl(s.world.clusters[c], d[i].url) ==> !IdleAndUp(d, s, i, c)
  {
    ListedNodesSize(d, s, c);
    ListedInRolling(d, s, c);
    UpAreListed(d, s, c);
    var listed := ListedNodes(d, s.world.clusters[c]);
    assert listed == d.Keys <==> forall i :: i in d ==> i in listed;
  }

  lemma AllListedWhileLaunching(d: Deployment, s: State, c: ClusterId, b: NodeId)
    requires Serial(d, s, c) && AllButOneUp(d, s, c) && b in d && s.phase[b].Launching?
    ensures forall i :: i in d ==> HasUrl(s.world.clusters[c], d[i].url)
  {
    LaunchingIsListed(d, s, c, b);
    UpAreListed(d, s, c);
    assert !IdleAndUp(d, s, b, c);
  }

  /** In every state of a rolling update of two or more nodes there is a quorum, exactly unless it is one
      of two and a node is listed but not yet launched. */
  lemma RollingQuorumExactly(d: Deployment, s: State, c: ClusterId)
    requires Serial(d, s, c) && AllButOneUp(d, s, c) && |d.Keys| >= 2
    ensures HasQuorum(d, s.world, c) <==> |d.Keys| >= 3 || !SomeLaunching(d, s)
  {
    QuorumExactly(d, s, c);
    RollingSize(d, s, c);
    if b :| b in d && s.phase[b].Launching? {
      AllListedWhileLaunching(d, s, c, b);
    }
  }

  // ---- conservation ----

  function MemberPairs(ms: seq<Member>): set<(string, string)>
  {
    set m | m in ms :: (m.name, m.peerUrl)
  }

  /** When all is quiet the membership is exactly the names and URLs of the nodes that are up. */
  lemma QuietMembership(d: Deployment, s: State, c: ClusterId)
    requires Serial(d, s, c) && AllIdle(d, s)
    ensures forall x :: x in MemberPairs(s.world.clusters[c])
                        <==> exists i :: i in d && Up(s.world, i, d[i], c) && x == (d[i].name, d[i].url)
  {
    var ms := s.world.clusters[c];
    forall i | i in d && Up(s.world, i, d[i], c) ensures (d[i].name, d[i].url) in MemberPairs(ms) {
      var m :| Entry(s.world, c, m) && m.peerUrl == d[i].url && m.name == d[i].name;
      assert m in ms;
    }
    forall m | m in ms
      ensures exists i :: i in d && Up(s.world, i, d[i], c) && (m.name, m.peerUrl) == (d[i].name, d[i].url)
    {
      assert Entry(s.world, c, m);
      var i := OwnerOf(d, s.world, c, m);
      QuietEntry(d, s, c, i, m);
    }
  }

  lemma QuietEntry(d: Deployment, s: State, c: ClusterId, i: NodeId, m: Member)
    requires Serial(d, s, c) && i in d && s.phase[i].Idle? && Entry(s.world, c, m) && m.peerUrl == d[i].url
    ensures Up(s.world, i, d[i], c) && m.name == d[i].name
  {
    assert NodeOk(s.world, i, d[i], s.phase[i], c);
    var n :| Entry(s.world, c, n) && n.peerUrl == d[i].url && n.name == d[i].name;
    var j :| 0 <= j < |s.world.clusters[c]| && s.world.clusters[c][j] == m;
    var k :| 0 <= k < |s.world.clusters[c]| && s.world.clusters[c][k] == n;
    assert UniqueUrls(s.world.clusters[c]);
    assert !(j < k) && !(k < j);
  }

  /** Rolling-update conservation: between two quiet states with the same nodes up, whatever turns were
      taken in between, the (name, URL) members and the cluster are the same. */
  lemma RunConserves(d: Deployment, s: State, steps: seq<Step>, t: State, c: ClusterId)
    requires Serial(d, s, c) && Run(d, s, steps, t) && Each(d, s, steps, SmoothIn(d, c))
    requires AllIdle(d, s) && Shape(d, t) && AllIdle(d, t)
    requires forall i :: i in d ==> (Up(s.world, i, d[i], c) <==> Up(t.world, i, d[i], c))
    ensures t.world.clusters.Keys == s.world.clusters.Keys == {c}
    ensures MemberPairs(t.world.clusters[c]) == MemberPairs(s.world.clusters[c])
  {
    SmoothRunStaysSerial(d, s, steps, t, c);
    QuietMembership(d, s, c);
    QuietMembership(d, t, c);
  }
}
