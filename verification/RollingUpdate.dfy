/** Whole rolling updates: every turn can be completed, and a pass over any nodes in any order ends
    with all of them up. */
module RollingUpdate {
  import opened Wrappers
  import opened Fleet
  import opened Protocol
  import opened Membership
  import opened PeerUrls
  import opened SingleCluster
  import opened Rolling
  import opened Quorum

  /** Smooth steps, where a node is taken down only when every node is up. */
  ghost predicate RollingRun(d: Deployment, s: State, steps: seq<Step>, t: State, c: ClusterId)
    requires Shape(d, s)
    decreases |steps|
  {
    if steps == [] then s == t
    else
      && Enabled(d, s, steps[0]) && Smooth(d, s, steps[0], c)
      && (steps[0].BeginStop? ==> AllUp(d, s, c))
      && RollingRun(d, Next(d, s, steps[0]), steps[1..], t, c)
  }

  ghost predicate RollingState(d: Deployment, s: State, c: ClusterId)
  {
    Serial(d, s, c) && AllButOneUp(d, s, c)
  }

  lemma {:induction false} RollingRunConcat(
      d: Deployment, s: State, a: seq<Step>, t: State, b: seq<Step>, u: State, c: ClusterId)
    requires Shape(d, s) && RollingRun(d, s, a, t, c)
    ensures Shape(d, t)
    ensures RollingRun(d, t, b, u, c) ==> RollingRun(d, s, a + b, u, c)
    decreases |a|
  {
    if a == [] {
      assert a + b == b;
    } else {
      RollingRunConcat(d, Next(d, s, a[0]), a[1..], t, b, u, c);
      assert (a + b)[1..] == a[1..] + b;
    }
  }

  // ---- the turns of a run ----

  predicate Begins(step: Step) { step.BeginStart? || step.BeginStop? }

  /** The Starts and Stops that a run begins, in order. */
  function Turns(steps: seq<Step>): seq<Step>
  {
    if steps == [] then [] else (if Begins(steps[0]) then [steps[0]] else []) + Turns(steps[1..])
  }

  /** A Stop and a Start of each node of an order. */
  function Pairs(order: seq<NodeId>): seq<Step>
  {
    if order == [] then [] else [BeginStop(order[0]), BeginStart(order[0])] + Pairs(order[1..])
  }

  lemma TurnsOne(step: Step, rest: seq<Step>)
    ensures Turns([step] + rest) == (if Begins(step) then [step] else []) + Turns(rest)
  {
    assert ([step] + rest)[1..] == rest;
  }

  lemma {:induction false} TurnsConcat(a: seq<Step>, b: seq<Step>)
    ensures Turns(a + b) == Turns(a) + Turns(b)
  {
    if a == [] {
      assert a + b == b;
    } else {
      TurnsConcat(a[1..], b);
      assert (a + b)[1..] == a[1..] + b;
      ConcatTwice(if Begins(a[0]) then [a[0]] else [], Turns(a[1..]), Turns(b));
    }
  }

  lemma ConcatTwice(x: seq<Step>, y: seq<Step>, z: seq<Step>)
    ensures (x + y) + z == x + (y + z)
  {
  }

  lemma TurnsOf(a: seq<Step>, b: seq<Step>, first: Step, second: Step)
    requires Turns(a) == [first] && Turns(b) == [second]
    ensures Turns(a + b) == [first, second]
  {
    TurnsConcat(a, b);
  }

  lemma NoTurns(step: Step, rest: seq<Step>)
    requires !Begins(step) && Turns(rest) == []
    ensures Turns([step] + rest) == []
  {
    TurnsOne(step, rest);
  }

  lemma OneTurn(begin: Step, rest: seq<Step>)
    requires Begins(begin) && Turns(rest) == []
    ensures Turns([begin] + rest) == [begin]
  {
    TurnsOne(begin, rest);
  }

  /** Two runs on end, with their turns. */
  lemma RollingRunJoin(d: Deployment, s: State, a: seq<Step>, t: State, b: seq<Step>, u: State, c: ClusterId,
                       first: Step, second: Step)
    requires Shape(d, s) && RollingRun(d, s, a, t, c) && Shape(d, t) && RollingRun(d, t, b, u, c)
    requires Turns(a) == [first] && Turns(b) == [second]
    ensures RollingRun(d, s, a + b, u, c) && Turns(a + b) == [first, second]
  {
    RollingRunConcat(d, s, a, t, b, u, c);
    TurnsOf(a, b, first, second);
  }

  /** Everything QuorumExactly, RollingSize and QuietMembership say holds throughout a rolling update. */
  lemma {:induction false} RollingRunStays(d: Deployment, s: State, steps: seq<Step>, t: State, c: ClusterId)
    requires RollingState(d, s, c) && RollingRun(d, s, steps, t, c)
    ensures RollingState(d, t, c)
    ensures |d.Keys| >= 3 ==> HasQuorum(d, t.world, c)
    decreases |steps|
  {
    if steps == [] {
      if |d.Keys| >= 3 { RollingQuorumExactly(d, t, c); }
    } else {
      StepStaysSerial(d, s, steps[0], c);
      StepStaysRolling(d, s, steps[0], c);
      RollingRunStays(d, Next(d, s, steps[0]), steps[1..], t, c);
    }
  }

  // ---- a busy node can always go on ----

  /** There is always an id not in use. */
  lemma {:induction false} UnusedId(ids: set<string>) returns (id: string)
    ensures id != "" && forall x :: x in ids ==> |x| < |id|
  {
    if ids == {} {
      id := "0";
    } else {
      var x :| x in ids;
      var rest := UnusedId(ids - {x});
      id := if |rest| > |x| then rest else x + "0";
    }
  }

  predicate Starting(p: Phase)
  {
    p.Listing? || p.Adding? || p.Launching? || p.Syncing? || p.WritingPid?
  }

  /** How many steps of its own a node has before it at most. */
  function Distance(p: Phase, published: bool): nat
  {
    match p
    case Idle => 0
    case Listing(_) => 6
    case Adding(_, _) => 5
    case Launching(_) => 4
    case Syncing(_, _) => if published then 2 else 3
    case WritingPid(_) => 1
    case Deciding => 5
    case Looking => 4
    case Removing(_) => 3
    case Wiping => 2
    case Killing => 1
  }

  ghost function Left(d: Deployment, s: State, i: NodeId, c: ClusterId): nat
    requires Shape(d, s) && i in d
  {
    Distance(s.phase[i], Published(s.world, c, d[i]))
  }

  lemma ClusterServes(d: Deployment, s: State, i: NodeId, c: ClusterId)
    requires Shape(d, s) && HasCompany(d, s, i, c)
    ensures MayServe(s.world, Some(c))
  {
    var j :| j in d && j != i && s.phase[j].Idle? && Up(s.world, j, d[j], c);
    var m :| Entry(s.world, c, m) && m.peerUrl == d[j].url;
    HostRuns(s.world.hosts[j], c);
  }

  /** The next step of a busy node. */
  function NextStep(p: Phase, i: NodeId, published: bool, c: ClusterId, id: string): Step
  {
    match p
    case Idle => BeginStart(i)
    case Listing(_) => List(i, Some(c))
    case Adding(_, _) => Add(i, Some(c), id)
    case Launching(_) => Step.Launch(i, Some(1), c, id)
    case Syncing(_, _) => if published then Sync(i, true) else Step.Publish(i, c)
    case WritingPid(_) => WritePid(i, true)
    case Deciding => Decide(i, Some(c))
    case Looking => Look(i, Some(c))
    case Removing(_) => Remove(i, Some(c))
    case Wiping => Wipe(i, true)
    case Killing => Kill(i, true)
  }

  lemma NextStepPossible(d: Deployment, s: State, i: NodeId, c: ClusterId, id: string)
    requires Serial(d, s, c) && i in d && !s.phase[i].Idle? && NewId(s.world, id)
    ensures var step := NextStep(s.phase[i], i, Published(s.world, c, d[i]), c, id);
            Enabled(d, s, step) && Smooth(d, s, step, c) && step.node == i
  {
    assert HasCompany(d, s, i, c);
    ClusterServes(d, s, i, c);
    assert NodeOk(s.world, i, d[i], s.phase[i], c);
    HostRuns(s.world.hosts[i], c);
  }

  /** It brings the node closer to the end of its turn: up after a Start, down after a Stop. */
  ghost predicate Closer(d: Deployment, s: State, t: State, i: NodeId, c: ClusterId)
    requires Shape(d, s) && Shape(d, t) && i in d
  {
    && Left(d, t, i, c) < Left(d, s, i, c)
    && (t.phase[i].Idle? ==> (Up(t.world, i, d[i], c) <==> Starting(s.phase[i])))
    && (!t.phase[i].Idle? ==> Starting(t.phase[i]) == Starting(s.phase[i]))
  }

  lemma ListCloser(d: Deployment, s: State, step: Step, c: ClusterId)
    requires Good(d, s, step, c) && step.List? && s.world.clusters[c] != []
    ensures Closer(d, s, Next(d, s, step), step.node, c)
  {
    AfterSmoothList(s.world, s.phase[step.node].failures, step.node, d[step.node], c);
  }

  lemma PublishCloser(d: Deployment, s: State, step: Step, c: ClusterId)
    requires Shape(d, s) && Enabled(d, s, step) && step == Step.Publish(step.node, c)
    requires s.phase[step.node].Syncing? && Present(s.world, c, d[step.node].url)
    requires !Published(s.world, c, d[step.node])
    ensures Closer(d, s, Next(d, s, step), step.node, c)
  {
    PublishStatus(s.world, d[step.node], c);
  }

  lemma WritePidCloser(d: Deployment, s: State, step: Step, c: ClusterId)
    requires Good(d, s, step, c) && step.WritePid?
    ensures Closer(d, s, Next(d, s, step), step.node, c)
  {
    AfterSmoothWritePid(s.world, Next(d, s, step).world, step.node, d[step.node], s.phase[step.node].pid, c);
  }

  lemma LackedIsNotPublished(w: World, v: World, c: ClusterId, self: Identity)
    requires Lacks(w, c, self.url) && v.clusters == w.clusters
    ensures !Published(v, c, self)
  {
    SameEntries(w, v, c, self);
    assert forall m :: Entry(v, c, m) ==> m.peerUrl != self.url;
  }

  lemma KillCloser(d: Deployment, s: State, step: Step, c: ClusterId)
    requires Shape(d, s) && Enabled(d, s, step) && step.Kill? && Lacks(s.world, c, d[step.node].url)
    ensures Closer(d, s, Next(d, s, step), step.node, c)
  {
    LackedIsNotPublished(s.world, Next(d, s, step).world, c, d[step.node]);
  }

  /** The steps of a Stop before the kill, whatever they find. */
  lemma StopCloser(d: Deployment, s: State, step: Step, c: ClusterId)
    requires Shape(d, s) && Enabled(d, s, step) && (step.Decide? || step.Look? || step.Remove? || step.Wipe?)
    ensures Closer(d, s, Next(d, s, step), step.node, c)
  {
  }

  lemma StartCloser(d: Deployment, s: State, step: Step, c: ClusterId)
    requires Shape(d, s) && Enabled(d, s, step) && c in s.world.clusters
    requires step.Add? ==> step.served == Some(c)
    requires step.Launch? ==> step.launched.Some?
    requires step.Sync? ==> step.synced
    requires step.Add? || step.Launch? || step.Sync?
    ensures Closer(d, s, Next(d, s, step), step.node, c)
  {
  }

  lemma NextStepCloser(d: Deployment, s: State, i: NodeId, c: ClusterId, id: string)
    requires Serial(d, s, c) && i in d && !s.phase[i].Idle? && NewId(s.world, id)
    ensures var step := NextStep(s.phase[i], i, Published(s.world, c, d[i]), c, id);
            Enabled(d, s, step) && Smooth(d, s, step, c) && Closer(d, s, Next(d, s, step), i, c)
  {
    var step := NextStep(s.phase[i], i, Published(s.world, c, d[i]), c, id);
    NextStepPossible(d, s, i, c, id);
    SmoothStepGood(d, s, step, c);
    assert NodeOk(s.world, i, d[i], s.phase[i], c);
    match s.phase[i] {
      case Listing(_) =>
        BusyStepHasCompany(d, s, step, c);
        ListCloser(d, s, step, c);
      case Syncing(_, _) => if step.Publish? { PublishCloser(d, s, step, c); } else { StartCloser(d, s, step, c); }
      case WritingPid(_) => WritePidCloser(d, s, step, c);
      case Killing => KillCloser(d, s, step, c);
      case Adding(_, _) => StartCloser(d, s, step, c);
      case Launching(_) => StartCloser(d, s, step, c);
      case Deciding => StopCloser(d, s, step, c);
      case Looking => StopCloser(d, s, step, c);
      case Removing(_) => StopCloser(d, s, step, c);
      case Wiping => StopCloser(d, s, step, c);
    }
  }

  // ---- turns ----

  ghost predicate OthersStayUp(d: Deployment, s: State, t: State, i: NodeId, c: ClusterId)
  {
    forall j :: j in d && j != i && Up(s.world, j, d[j], c) ==> Up(t.world, j, d[j], c)
  }

  lemma StepLeavesOthersUp(d: Deployment, s: State, step: Step, c: ClusterId)
    requires Inv(d, s) && Enabled(d, s, step)
    ensures OthersStayUp(d, s, Next(d, s, step), step.node, c)
  {
    StepEvolves(d, s, step);
    OtherNodesUntouched(d, s, step);
    forall j | j in d && j != step.node && Up(s.world, j, d[j], c) ensures Up(Next(d, s, step).world, j, d[j], c) {
      OtherStaysUp(d, s.world, Next(d, s, step).world, step.node, j, c);
    }
  }

  lemma OneStepRun(d: Deployment, s: State, step: Step, rest: seq<Step>, t: State, c: ClusterId)
    requires Shape(d, s) && Enabled(d, s, step) && Smooth(d, s, step, c)
    requires step.BeginStop? ==> AllUp(d, s, c)
    requires RollingRun(d, Next(d, s, step), rest, t, c)
    ensures RollingRun(d, s, [step] + rest, t, c)
  {
    assert ([step] + rest)[1..] == rest;
  }

  lemma SmoothStepKeeps(d: Deployment, s: State, step: Step, c: ClusterId)
    requires RollingState(d, s, c) && Enabled(d, s, step) && Smooth(d, s, step, c)
    requires step.BeginStop? ==> AllUp(d, s, c)
    ensures RollingState(d, Next(d, s, step), c) && OthersStayUp(d, s, Next(d, s, step), step.node, c)
  {
    StepStaysSerial(d, s, step, c);
    StepStaysRolling(d, s, step, c);
    StepLeavesOthersUp(d, s, step, c);
  }

  lemma QuietAfter(d: Deployment, s: State, step: Step)
    requires Shape(d, s) && Enabled(d, s, step) && OneBusy(d, s) && !s.phase[step.node].Idle?
    ensures Next(d, s, step).phase[step.node].Idle? ==> AllIdle(d, Next(d, s, step))
  {
    OtherNodesUntouched(d, s, step);
  }

  /** One more step of a busy node, with all it keeps. */
  lemma BusyStep(d: Deployment, s: State, i: NodeId, c: ClusterId) returns (step: Step)
    requires RollingState(d, s, c) && i in d && !s.phase[i].Idle?
    ensures Enabled(d, s, step) && Smooth(d, s, step, c) && !Begins(step)
    ensures RollingState(d, Next(d, s, step), c)
    ensures Closer(d, s, Next(d, s, step), i, c) && OthersStayUp(d, s, Next(d, s, step), i, c)
    ensures Next(d, s, step).phase[i].Idle? ==> AllIdle(d, Next(d, s, step))
  {
    var id := UnusedId(s.world.usedIds);
    step := NextStep(s.phase[i], i, Published(s.world, c, d[i]), c, id);
    NextStepCloser(d, s, i, c, id);
    NextStepPossible(d, s, i, c, id);
    SmoothStepKeeps(d, s, step, c);
    QuietAfter(d, s, step);
  }

  /** The turn of a busy node can be completed; then all is quiet, and the node is up iff it was starting. */
  lemma {:induction false} CompleteTurn(d: Deployment, s: State, i: NodeId, c: ClusterId)
    returns (steps: seq<Step>, t: State)
    requires RollingState(d, s, c) && i in d && !s.phase[i].Idle?
    ensures RollingRun(d, s, steps, t, c) && RollingState(d, t, c) && AllIdle(d, t)
    ensures Up(t.world, i, d[i], c) <==> Starting(s.phase[i])
    ensures OthersStayUp(d, s, t, i, c) && Turns(steps) == []
    decreases Left(d, s, i, c)
  {
    var step := BusyStep(d, s, i, c);
    var s1 := Next(d, s, step);
    if s1.phase[i].Idle? {
      steps, t := [], s1;
    } else {
      steps, t := CompleteTurn(d, s1, i, c);
    }
    OneStepRun(d, s, step, steps, t, c);
    NoTurns(step, steps);
    steps := [step] + steps;
  }

  lemma BeginTurn(d: Deployment, s: State, begin: Step, c: ClusterId)
    requires RollingState(d, s, c) && (begin.BeginStart? || begin.BeginStop?)
    requires Enabled(d, s, begin) && Smooth(d, s, begin, c) && (begin.BeginStop? ==> AllUp(d, s, c))
    ensures var s1 := Next(d, s, begin);
            && RollingState(d, s1, c) && OthersStayUp(d, s, s1, begin.node, c)
            && !s1.phase[begin.node].Idle? && Starting(s1.phase[begin.node]) == begin.BeginStart?
  {
    SmoothStepKeeps(d, s, begin, c);
  }

  /** One node begins a turn and completes it. */
  lemma TakeTurn(d: Deployment, s: State, begin: Step, c: ClusterId) returns (steps: seq<Step>, t: State)
    requires RollingState(d, s, c) && (begin.BeginStart? || begin.BeginStop?)
    requires Enabled(d, s, begin) && Smooth(d, s, begin, c) && (begin.BeginStop? ==> AllUp(d, s, c))
    ensures RollingRun(d, s, steps, t, c) && RollingState(d, t, c) && AllIdle(d, t)
    ensures Up(t.world, begin.node, d[begin.node], c) <==> begin.BeginStart?
    ensures OthersStayUp(d, s, t, begin.node, c) && Turns(steps) == [begin]
  {
    BeginTurn(d, s, begin, c);
    steps, t := CompleteTurn(d, Next(d, s, begin), begin.node, c);
    OneStepRun(d, s, begin, steps, t, c);
    OneTurn(begin, steps);
    steps := [begin] + steps;
  }

  lemma AnotherNode(d: Deployment, i: NodeId) returns (j: NodeId)
    requires i in d && |d.Keys| >= 2
    ensures j in d && j != i
  {
    assert d.Keys != {i};
    j :| j in d && j != i;
  }

  lemma MayStop(d: Deployment, s: State, i: NodeId, c: ClusterId)
    requires Shape(d, s) && AllUp(d, s, c) && i in d && |d.Keys| >= 2
    ensures Enabled(d, s, BeginStop(i)) && Smooth(d, s, BeginStop(i), c)
  {
    var j := AnotherNode(d, i);
    assert IdleAndUp(d, s, j, c) && IdleAndUp(d, s, i, c);
    assert forall k :: k in d ==> IdleAndUp(d, s, k, c);
  }

  lemma MayStart(d: Deployment, s: State, s1: State, i: NodeId, c: ClusterId)
    requires Shape(d, s) && AllUp(d, s, c) && |d.Keys| >= 2 && OthersStayUp(d, s, s1, i, c)
    requires Shape(d, s1) && NodesOk(d, s1, c) && AllIdle(d, s1) && i in d && !Up(s1.world, i, d[i], c)
    ensures Enabled(d, s1, BeginStart(i)) && Smooth(d, s1, BeginStart(i), c)
  {
    var j := AnotherNode(d, i);
    assert IdleAndUp(d, s, j, c);
    assert NodeOk(s1.world, i, d[i], s1.phase[i], c);
  }

  lemma AllUpAgain(d: Deployment, s: State, s1: State, t: State, i: NodeId, c: ClusterId)
    requires Shape(d, s) && AllUp(d, s, c) && OthersStayUp(d, s, s1, i, c) && OthersStayUp(d, s1, t, i, c)
    requires Shape(d, t) && AllIdle(d, t) && i in d && Up(t.world, i, d[i], c)
    ensures AllUp(d, t, c)
  {
    forall k | k in d ensures IdleAndUp(d, t, k, c) {
      assert IdleAndUp(d, s, k, c);
    }
  }

  lemma StopTurn(d: Deployment, s: State, i: NodeId, c: ClusterId) returns (steps: seq<Step>, t: State)
    requires RollingState(d, s, c) && AllUp(d, s, c) && i in d && |d.Keys| >= 2
    ensures RollingRun(d, s, steps, t, c) && RollingState(d, t, c) && Turns(steps) == [BeginStop(i)]
    ensures OthersStayUp(d, s, t, i, c) && Enabled(d, t, BeginStart(i)) && Smooth(d, t, BeginStart(i), c)
  {
    MayStop(d, s, i, c);
    steps, t := TakeTurn(d, s, BeginStop(i), c);
    MayStart(d, s, t, i, c);
  }

  lemma StartTurn(d: Deployment, s0: State, s: State, i: NodeId, c: ClusterId) returns (steps: seq<Step>, t: State)
    requires Shape(d, s0) && AllUp(d, s0, c) && i in d && OthersStayUp(d, s0, s, i, c)
    requires RollingState(d, s, c) && Enabled(d, s, BeginStart(i)) && Smooth(d, s, BeginStart(i), c)
    ensures RollingRun(d, s, steps, t, c) && RollingState(d, t, c) && AllUp(d, t, c)
    ensures Turns(steps) == [BeginStart(i)]
  {
    steps, t := TakeTurn(d, s, BeginStart(i), c);
    AllUpAgain(d, s0, s, t, i, c);
  }

  /** A node's turn in a rolling update: its Stop, then its Start, ending with all nodes up again. */
  lemma RollOne(d: Deployment, s: State, i: NodeId, c: ClusterId) returns (steps: seq<Step>, t: State)
    requires RollingState(d, s, c) && AllUp(d, s, c) && i in d && |d.Keys| >= 2
    ensures RollingRun(d, s, steps, t, c) && RollingState(d, t, c) && AllUp(d, t, c)
    ensures Turns(steps) == [BeginStop(i), BeginStart(i)]
  {
    var down, s1 := StopTurn(d, s, i, c);
    var up;
    up, t := StartTurn(d, s, s1, i, c);
    steps := down + up;
    RollingRunJoin(d, s, down, s1, up, t, c, BeginStop(i), BeginStart(i));
  }

  /** With all nodes up, the members are the nodes of the deployment. */
  lemma AllUpMembership(d: Deployment, s: State, c: ClusterId)
    requires Serial(d, s, c) && AllUp(d, s, c)
    ensures forall x :: x in MemberPairs(s.world.clusters[c]) <==> exists i :: i in d && x == (d[i].name, d[i].url)
  {
    assert forall i :: i in d ==> IdleAndUp(d, s, i, c);
    QuietMembership(d, s, c);
  }

  /** Rolling-update conservation: whatever turns lie between them, two states with all nodes up have the
      same (name, URL) members in the same cluster. */
  lemma RollingUpdateConserves(d: Deployment, s: State, steps: seq<Step>, t: State, c: ClusterId)
    requires RollingState(d, s, c) && AllUp(d, s, c) && RollingRun(d, s, steps, t, c)
    requires Shape(d, t) && AllUp(d, t, c)
    ensures t.world.clusters.Keys == s.world.clusters.Keys == {c}
    ensures MemberPairs(t.world.clusters[c]) == MemberPairs(s.world.clusters[c])
  {
    RollingRunStays(d, s, steps, t, c);
    AllUpMembership(d, s, c);
    AllUpMembership(d, t, c);
  }

  /** A run between two states with all nodes up. */
  ghost predicate Pass(d: Deployment, s: State, steps: seq<Step>, t: State, c: ClusterId)
  {
    && RollingState(d, s, c) && AllUp(d, s, c) && RollingRun(d, s, steps, t, c)
    && RollingState(d, t, c) && AllUp(d, t, c)
  }

  lemma EmptyPass(d: Deployment, s: State, c: ClusterId)
    requires RollingState(d, s, c) && AllUp(d, s, c)
    ensures Pass(d, s, [], s, c)
  {
  }

  lemma PassConcat(d: Deployment, s: State, a: seq<Step>, t: State, b: seq<Step>, u: State, c: ClusterId)
    requires Pass(d, s, a, t, c) && Pass(d, t, b, u, c)
    ensures Pass(d, s, a + b, u, c)
  {
    RollingRunConcat(d, s, a, t, b, u, c);
  }

  /** A pass over the nodes, in any order, with any repetitions, can be carried out from any state with
      all nodes up, and ends with all nodes up. */
  lemma {:induction false} RollAll(d: Deployment, s: State, order: seq<NodeId>, c: ClusterId)
    returns (steps: seq<Step>, t: State)
    requires RollingState(d, s, c) && AllUp(d, s, c) && |d.Keys| >= 2
    requires forall i :: i in order ==> i in d
    ensures Pass(d, s, steps, t, c) && Turns(steps) == Pairs(order)
    decreases |order|
  {
    if order == [] {
      steps, t := [], s;
      EmptyPass(d, s, c);
    } else {
      var first, s1 := RollOne(d, s, order[0], c);
      var rest;
      rest, t := RollAll(d, s1, order[1..], c);
      steps := first + rest;
      PassConcat(d, s, first, s1, rest, t, c);
      TurnsConcat(first, rest);
    }
  }

  // ---- two nodes ----

  lemma ListToAdding(d: Deployment, s: State, i: NodeId, c: ClusterId)
    requires Shape(d, s) && Enabled(d, s, List(i, Some(c))) && IsDown(s.world, i, d[i], c)
    requires c in s.world.clusters && s.world.clusters[c] != []
    ensures Next(d, s, List(i, Some(c))).phase[i].Adding?
  {
    AfterSmoothList(s.world, s.phase[i].failures, i, d[i], c);
  }

  lemma AddToLaunching(d: Deployment, s: State, i: NodeId, c: ClusterId, id: string)
    requires Shape(d, s) && Enabled(d, s, Add(i, Some(c), id))
    ensures Next(d, s, Add(i, Some(c), id)).phase[i].Launching?
  {
  }

  /** The list and the add of a Start, up to the launch. */
  lemma ToTheLaunch(d: Deployment, s: State, i: NodeId, c: ClusterId) returns (steps: seq<Step>, t: State)
    requires RollingState(d, s, c) && i in d && s.phase[i].Listing?
    ensures RollingRun(d, s, steps, t, c) && RollingState(d, t, c) && t.phase[i].Launching? && Turns(steps) == []
  {
    var id := UnusedId(s.world.usedIds);
    NextStepPossible(d, s, i, c, id);
    DownWhileListing(d, s, i, c);
    ListToAdding(d, s, i, c);
    SmoothStepKeeps(d, s, List(i, Some(c)), c);
    var s1 := Next(d, s, List(i, Some(c)));
    NextStepPossible(d, s1, i, c, id);
    AddToLaunching(d, s1, i, c, id);
    SmoothStepKeeps(d, s1, Add(i, Some(c), id), c);
    t := Next(d, s1, Add(i, Some(c), id));
    OneStepRun(d, s1, Add(i, Some(c), id), [], t, c);
    NoTurns(Add(i, Some(c), id), []);
    var last := [Add(i, Some(c), id)] + [];
    OneStepRun(d, s, List(i, Some(c)), last, t, c);
    NoTurns(List(i, Some(c)), last);
    steps := [List(i, Some(c))] + last;
  }

  lemma DownWhileListing(d: Deployment, s: State, i: NodeId, c: ClusterId)
    requires Serial(d, s, c) && i in d && s.phase[i].Listing?
    ensures IsDown(s.world, i, d[i], c) && s.world.clusters[c] != []
  {
    assert NodeOk(s.world, i, d[i], s.phase[i], c);
    assert HasCompany(d, s, i, c);
    ClusterNotEmpty(d, s, i, c);
  }

  lemma BeginToTheLaunch(d: Deployment, s: State, i: NodeId, c: ClusterId) returns (steps: seq<Step>, t: State)
    requires RollingState(d, s, c) && Enabled(d, s, BeginStart(i)) && Smooth(d, s, BeginStart(i), c)
    ensures RollingRun(d, s, steps, t, c) && RollingState(d, t, c) && t.phase[i].Launching?
    ensures Turns(steps) == [BeginStart(i)]
  {
    BeginTurn(d, s, BeginStart(i), c);
    var rest;
    rest, t := ToTheLaunch(d, Next(d, s, BeginStart(i)), i, c);
    steps := [BeginStart(i)] + rest;
    OneStepRun(d, s, BeginStart(i), rest, t, c);
    OneTurn(BeginStart(i), rest);
  }

  lemma LaunchingWithoutQuorum(d: Deployment, s: State, i: NodeId, c: ClusterId)
    requires RollingState(d, s, c) && i in d && |d.Keys| == 2 && s.phase[i].Launching?
    ensures !HasQuorum(d, s.world, c)
  {
    RollingQuorumExactly(d, s, c);
  }

  /** A rolling update of two nodes loses its quorum in each node's turn. */
  lemma TwoNodesLoseQuorum(d: Deployment, s: State, i: NodeId, c: ClusterId) returns (steps: seq<Step>, t: State)
    requires RollingState(d, s, c) && AllUp(d, s, c) && i in d && |d.Keys| == 2
    ensures RollingRun(d, s, steps, t, c) && RollingState(d, t, c) && Turns(steps) == [BeginStop(i), BeginStart(i)]
    ensures t.phase[i].Launching? && !HasQuorum(d, t.world, c)
  {
    var down, s1 := StopTurn(d, s, i, c);
    var up;
    up, t := BeginToTheLaunch(d, s1, i, c);
    steps := down + up;
    RollingRunJoin(d, s, down, s1, up, t, c, BeginStop(i), BeginStart(i));
    LaunchingWithoutQuorum(d, t, i, c);
  }
}
