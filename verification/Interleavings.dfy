/** What interleaving and a split cluster can break, and exactly when. */
module Interleavings {
  import opened Wrappers
  import opened Fleet
  import opened ClusterController
  import opened Application
  import opened Protocol
  import opened Membership
  import opened PeerUrls
  import Identities
  import Refinement
  import SingleCluster

  // ---- removals that are on their way ----

  /** The node of an entry is about to remove it: it has looked up its id, or will find it under its name. */
  ghost predicate Doomed(d: Deployment, s: State, m: Member)
    requires Shape(d, s)
  {
    exists j :: j in d && m.peerUrl == d[j].url && Removes(d, s, j, m)
  }

  ghost predicate Removes(d: Deployment, s: State, j: NodeId, m: Member)
    requires Shape(d, s) && j in d
  {
    s.phase[j] == Removing(m.id) || (s.phase[j] == Looking && m.name == d[j].name)
  }

  ghost predicate AllDoomed(d: Deployment, s: State, c: ClusterId)
    requires Shape(d, s)
  {
    c in s.world.clusters && forall m :: m in s.world.clusters[c] ==> Doomed(d, s, m)
  }

  /** Only removals already begun go on. */
  predicate Leaves(s: State, step: Step) { step.Look? || step.Remove? }

  ghost predicate LeaveRun(d: Deployment, s: State, steps: seq<Step>, t: State)
    requires Shape(d, s)
  {
    Run(d, s, steps, t) && Each(d, s, steps, Leaves)
  }

  ghost predicate Emptied(s: State, c: ClusterId) { c in s.world.clusters && s.world.clusters[c] == [] }

  // ---- an entry that is not doomed stays ----

  lemma LookFindsOther(d: Deployment, s: State, step: Step, c: ClusterId, m: Member)
    requires Inv(d, s) && Enabled(d, s, step) && step.Look? && Entry(s.world, c, m)
    requires m.name != d[step.node].name
    ensures Next(d, s, step).phase[step.node] != Removing(m.id)
  {
    var w, name := s.world, d[step.node].name;
    var id := OwnId(Listed(w, step.served), name);
    if id == m.id {
      var own :| own in w.clusters[step.served.value] && own.name == name && own.id == id;
      assert Entry(w, step.served.value, own);
    }
  }

  lemma OtherRemoveKeeps(w: World, served: Option<ClusterId>, id: string, c: ClusterId, m: Member)
    requires Entry(w, c, m) && m.id != id
    ensures MemberRemove(w, served, id).Some? ==> Entry(MemberRemove(w, served, id).value, c, m)
  {
  }

  lemma OwnLeaveKeeps(d: Deployment, s: State, step: Step, c: ClusterId, m: Member)
    requires Inv(d, s) && Enabled(d, s, step) && Leaves(s, step) && Entry(s.world, c, m)
    requires m.peerUrl == d[step.node].url && !Removes(d, s, step.node, m)
    ensures Entry(Next(d, s, step).world, c, m) && !Removes(d, Next(d, s, step), step.node, m)
  {
    if step.Look? {
      LookFindsOther(d, s, step, c, m);
    } else {
      OtherRemoveKeeps(s.world, step.served, s.phase[step.node].id, c, m);
    }
  }

  lemma UndoomedStays(d: Deployment, s: State, step: Step, c: ClusterId, m: Member)
    requires Inv(d, s) && Enabled(d, s, step) && Leaves(s, step) && Entry(s.world, c, m) && !Doomed(d, s, m)
    ensures Entry(Next(d, s, step).world, c, m) && !Doomed(d, Next(d, s, step), m)
  {
    var t := Next(d, s, step);
    if m.peerUrl == d[step.node].url {
      OwnLeaveKeeps(d, s, step, c, m);
    } else {
      StepEvolves(d, s, step);
    }
    PhaseChange(d, s, step);
    forall j | j in d && m.peerUrl == d[j].url ensures !Removes(d, t, j, m) {
      assert !Removes(d, s, j, m);
    }
  }

  lemma {:induction false} UndoomedRun(
      d: Deployment, s: State, steps: seq<Step>, t: State, c: ClusterId, m: Member)
    requires Inv(d, s) && LeaveRun(d, s, steps, t) && Entry(s.world, c, m) && !Doomed(d, s, m)
    ensures Entry(t.world, c, m)
    decreases |steps|
  {
    if steps != [] {
      UndoomedStays(d, s, steps[0], c, m);
      StepKeepsInv(d, s, steps[0]);
      UndoomedRun(d, Next(d, s, steps[0]), steps[1..], t, c, m);
    }
  }

  // ---- doomed entries can go ----

  /** A live cluster in which everything else is as it should be. */
  ghost predicate Ready(d: Deployment, s: State, c: ClusterId)
  {
    Inv(d, s) && c in s.world.clusters && UniqueUrls(s.world.clusters[c]) && Live(s.world, c)
  }

  lemma LookStep(d: Deployment, s: State, j: NodeId, c: ClusterId, m: Member)
    requires Ready(d, s, c) && j in d && s.phase[j] == Looking
    requires m in s.world.clusters[c] && m.peerUrl == d[j].url && m.name == d[j].name
    ensures Enabled(d, s, Look(j, Some(c)))
    ensures Next(d, s, Look(j, Some(c))) == To(s, j, s.world, Removing(m.id))
  {
    Identities.OwnEntryAgreesExactly(d, s, j, c, m);
  }

  lemma RemoveStep(d: Deployment, s: State, j: NodeId, c: ClusterId, m: Member)
    requires Ready(d, s, c) && j in d && s.phase[j] == Removing(m.id) && m in s.world.clusters[c]
    ensures Enabled(d, s, Remove(j, Some(c)))
    ensures Next(d, s, Remove(j, Some(c))) ==
            To(s, j, SetMembers(s.world, c, WithoutId(s.world.clusters[c], m.id)), Wiping)
  {
    assert Entry(s.world, c, m);
  }

  lemma LiveSame(w: World, v: World, c: ClusterId)
    requires Live(w, c) && v.hosts == w.hosts
    ensures Live(v, c)
  {
    var i :| i in w.hosts && RunsIn(w.hosts[i], c);
    assert RunsIn(v.hosts[i], c);
  }

  lemma LeaveKeepsUrls(d: Deployment, s: State, step: Step, c: ClusterId)
    requires Shape(d, s) && Enabled(d, s, step) && Leaves(s, step)
    requires c in s.world.clusters && UniqueUrls(s.world.clusters[c])
    ensures var v := Next(d, s, step).world;
            v.hosts == s.world.hosts && c in v.clusters && UniqueUrls(v.clusters[c])
  {
    if step.Remove? { WithoutIdUniqueUrls(s.world.clusters[c], s.phase[step.node].id); }
  }

  lemma StillReady(d: Deployment, s: State, step: Step, c: ClusterId)
    requires Ready(d, s, c) && Enabled(d, s, step) && Leaves(s, step)
    ensures Ready(d, Next(d, s, step), c)
  {
    StepKeepsInv(d, s, step);
    LeaveKeepsUrls(d, s, step, c);
    LiveSame(s.world, Next(d, s, step).world, c);
  }

  lemma OthersStayDoomed(d: Deployment, s: State, t: State, j: NodeId, c: ClusterId, m: Member)
    requires Ready(d, s, c) && AllDoomed(d, s, c) && j in d && Shape(d, t)
    requires m in s.world.clusters[c] && m.peerUrl == d[j].url
    requires c in t.world.clusters && t.world.clusters[c] == WithoutId(s.world.clusters[c], m.id)
    requires forall i :: i in d && i != j ==> t.phase[i] == s.phase[i]
    ensures AllDoomed(d, t, c)
  {
    forall n | n in t.world.clusters[c] ensures Doomed(d, t, n) {
      var i :| i in d && n.peerUrl == d[i].url && Removes(d, s, i, n);
      Identities.SameUrlSameEntry(s.world.clusters[c], m, n);
      assert Removes(d, t, i, n);
    }
  }

  lemma OneStepLeaveRun(d: Deployment, s: State, step: Step, rest: seq<Step>, t: State)
    requires Shape(d, s) && Enabled(d, s, step) && Leaves(s, step) && LeaveRun(d, Next(d, s, step), rest, t)
    ensures LeaveRun(d, s, [step] + rest, t)
  {
    assert ([step] + rest)[1..] == rest;
  }

  /** The owner of an entry takes the steps that remove it. */
  lemma OneLeaves(d: Deployment, s: State, c: ClusterId, j: NodeId, m: Member) returns (step: Step)
    requires Ready(d, s, c) && AllDoomed(d, s, c)
    requires m in s.world.clusters[c] && j in d && m.peerUrl == d[j].url && Removes(d, s, j, m)
    ensures Enabled(d, s, step) && Leaves(s, step) && Ready(d, Next(d, s, step), c)
    ensures AllDoomed(d, Next(d, s, step), c) && Next(d, s, step).world.hosts == s.world.hosts
    ensures if s.phase[j] == Looking then
              Next(d, s, step).world == s.world && Next(d, s, step).phase[j] == Removing(m.id)
            else |Next(d, s, step).world.clusters[c]| == |s.world.clusters[c]| - 1
  {
    if s.phase[j] == Looking {
      step := Look(j, Some(c));
      LookStep(d, s, j, c, m);
      StillDoomedAfterLook(d, s, Next(d, s, step), c, j, m);
    } else {
      step := Remove(j, Some(c));
      RemoveStep(d, s, j, c, m);
      WithoutIdUniqueIds(s.world.clusters[c], m.id);
      OthersStayDoomed(d, s, Next(d, s, step), j, c, m);
    }
    StillReady(d, s, step, c);
  }

  lemma StillDoomedAfterLook(d: Deployment, s: State, t: State, c: ClusterId, j: NodeId, m: Member)
    requires Ready(d, s, c) && AllDoomed(d, s, c) && j in d && m in s.world.clusters[c] && m.peerUrl == d[j].url
    requires t == To(s, j, s.world, Removing(m.id)) && Shape(d, t)
    ensures AllDoomed(d, t, c)
  {
    forall n | n in t.world.clusters[c] ensures Doomed(d, t, n) {
      var i :| i in d && n.peerUrl == d[i].url && Removes(d, s, i, n);
      Identities.SameUrlSameEntry(s.world.clusters[c], m, n);
      assert Removes(d, t, i, n);
    }
  }

  lemma {:induction false} DoomedRun(d: Deployment, s: State, c: ClusterId) returns (steps: seq<Step>, t: State)
    requires Ready(d, s, c) && AllDoomed(d, s, c)
    ensures LeaveRun(d, s, steps, t) && Emptied(t, c) && t.world.hosts == s.world.hosts
    decreases |s.world.clusters[c]|, 1
  {
    if s.world.clusters[c] == [] {
      steps, t := [], s;
    } else {
      var m := s.world.clusters[c][0];
      assert Doomed(d, s, m);
      var j :| j in d && m.peerUrl == d[j].url && Removes(d, s, j, m);
      var step := OneLeaves(d, s, c, j, m);
      var s1 := Next(d, s, step);
      var rest;
      if s.phase[j] == Looking {
        rest, t := DoomedRunOn(d, s1, c, j, m);
      } else {
        rest, t := DoomedRun(d, s1, c);
      }
      steps := [step] + rest;
      OneStepLeaveRun(d, s, step, rest, t);
    }
  }

  lemma {:induction false} DoomedRunOn(d: Deployment, s: State, c: ClusterId, j: NodeId, m: Member)
    returns (steps: seq<Step>, t: State)
    requires Ready(d, s, c) && AllDoomed(d, s, c)
    requires m in s.world.clusters[c] && j in d && m.peerUrl == d[j].url && s.phase[j] == Removing(m.id)
    ensures LeaveRun(d, s, steps, t) && Emptied(t, c) && t.world.hosts == s.world.hosts
    decreases |s.world.clusters[c]|, 0
  {
    var step := OneLeaves(d, s, c, j, m);
    var rest;
    rest, t := DoomedRun(d, Next(d, s, step), c);
    steps := [step] + rest;
    OneStepLeaveRun(d, s, step, rest, t);
  }

  /** What is on its way can empty the membership of a live cluster exactly if every listed node has looked up its
      own id, or is about to and will find its published name: for any number of members. */
  lemma EmptiedExactly(d: Deployment, s: State, c: ClusterId)
    requires Ready(d, s, c)
    ensures (exists steps, t :: LeaveRun(d, s, steps, t) && Emptied(t, c)) <==> AllDoomed(d, s, c)
  {
    if AllDoomed(d, s, c) {
      var steps, t := DoomedRun(d, s, c);
    } else {
      var m :| m in s.world.clusters[c] && !Doomed(d, s, m);
      assert Entry(s.world, c, m);
      forall steps, t | LeaveRun(d, s, steps, t) ensures !Emptied(t, c) {
        UndoomedRun(d, s, steps, t, c, m);
      }
    }
  }

  // ---- when the membership stays non-empty ----

  predicate Leaving(p: Phase) { p.Looking? || p.Removing? }

  ghost predicate Stays(d: Deployment, s: State, j: NodeId, c: ClusterId, m: Member)
    requires Shape(d, s)
  {
    j in d && Entry(s.world, c, m) && m.peerUrl == d[j].url && !Leaving(s.phase[j])
  }

  /** Some listed node other than `i` is not leaving. */
  ghost predicate StayerBeside(d: Deployment, s: State, i: NodeId, c: ClusterId)
    requires Shape(d, s)
  {
    exists j, m :: j != i && Stays(d, s, j, c, m)
  }

  ghost predicate SomeStays(d: Deployment, s: State, c: ClusterId)
    requires Shape(d, s)
  {
    exists j, m :: Stays(d, s, j, c, m)
  }

  /** A node begins to leave (a Stop that has decided, a Start that failed to sync) only beside a stayer. */
  ghost function LeavesBesideStayer(d: Deployment, c: ClusterId): Condition
  {
    (s: State, step: Step) =>
      (Shape(d, s) && Enabled(d, s, step) && BeginsToLeave(d, s, step) ==> StayerBeside(d, s, step.node, c))
  }

  ghost predicate BeginsToLeave(d: Deployment, s: State, step: Step)
    requires Shape(d, s) && Enabled(d, s, step)
  {
    Leaving(Next(d, s, step).phase[step.node]) && !Leaving(s.phase[step.node])
  }

  lemma OtherStays(d: Deployment, s: State, step: Step, j: NodeId, c: ClusterId, m: Member)
    requires Inv(d, s) && Enabled(d, s, step) && j != step.node && Stays(d, s, j, c, m)
    ensures Stays(d, Next(d, s, step), j, c, m)
  {
    StepEvolves(d, s, step);
    PhaseChange(d, s, step);
  }

  lemma OwnStays(d: Deployment, s: State, step: Step, c: ClusterId, m: Member)
    requires Inv(d, s) && Enabled(d, s, step) && Stays(d, s, step.node, c, m)
    requires !Leaving(Next(d, s, step).phase[step.node])
    ensures SomeStays(d, Next(d, s, step), c)
  {
    StepEvolves(d, s, step);
    var n :| Entry(Next(d, s, step).world, c, n) && SameEntry(m, n);
    assert Stays(d, Next(d, s, step), step.node, c, n);
  }

  lemma StepKeepsStayer(d: Deployment, s: State, step: Step, c: ClusterId)
    requires Inv(d, s) && Enabled(d, s, step) && SomeStays(d, s, c)
    requires BeginsToLeave(d, s, step) ==> StayerBeside(d, s, step.node, c)
    ensures SomeStays(d, Next(d, s, step), c)
  {
    var j, m :| Stays(d, s, j, c, m);
    if j != step.node {
      OtherStays(d, s, step, j, c, m);
    } else if BeginsToLeave(d, s, step) {
      var k, n :| k != step.node && Stays(d, s, k, c, n);
      OtherStays(d, s, step, k, c, n);
    } else {
      OwnStays(d, s, step, c, m);
    }
  }

  /** Over any interleaving a membership stays non-empty while nodes only begin to leave beside a listed node that
      does not. */
  lemma {:induction false} RunKeepsNonEmpty(d: Deployment, s: State, steps: seq<Step>, t: State, c: ClusterId)
    requires Inv(d, s) && SomeStays(d, s, c) && Run(d, s, steps, t) && Each(d, s, steps, LeavesBesideStayer(d, c))
    ensures Inv(d, t) && SomeStays(d, t, c) && c in t.world.clusters && t.world.clusters[c] != []
    decreases |steps|
  {
    if steps != [] {
      StepKeepsInv(d, s, steps[0]);
      StepKeepsStayer(d, s, steps[0], c);
      RunKeepsNonEmpty(d, Next(d, s, steps[0]), steps[1..], t, c);
    } else {
      var j, m :| Stays(d, t, j, c, m);
    }
  }

  // ---- concurrent Stops ----

  ghost predicate NodeIn(d: Deployment, s: State, j: NodeId, m: Member, p: Phase)
    requires Shape(d, s)
  {
    j in d && m.peerUrl == d[j].url && m.name == d[j].name && s.phase[j] == p
  }

  /** Every entry is some node's, under its published name, and the node is in this phase. */
  ghost predicate AllIn(d: Deployment, s: State, ms: seq<Member>, p: Phase)
    requires Shape(d, s)
  {
    forall m :: m in ms ==> exists j :: NodeIn(d, s, j, m, p)
  }

  lemma StopDecides(d: Deployment, s: State, j: NodeId, c: ClusterId)
    requires Shape(d, s) && j in d && s.phase[j].Idle?
    requires c in s.world.clusters && |s.world.clusters[c]| >= 2 && Live(s.world, c)
    ensures Run(d, s, [BeginStop(j), Decide(j, Some(c))], To(s, j, s.world, Looking))
  {
    var s1 := Next(d, s, BeginStop(j));
    Refinement.ToTwice(s, j, s.world, Deciding, s.world, Looking);
    SingleCluster.TwoStepRun(d, s, BeginStop(j), s1, Decide(j, Some(c)), To(s, j, s.world, Looking));
  }

  // The members `done` have decided, `rest` are still idle, and one more decides.

  lemma DoneStay(d: Deployment, s: State, j: NodeId, done: seq<Member>, m: Member)
    requires Shape(d, s) && AllIn(d, s, done, Looking) && NodeIn(d, s, j, m, Idle)
    ensures var t := To(s, j, s.world, Looking);
            Shape(d, t) && AllIn(d, t, done + [m], Looking)
  {
    var t := To(s, j, s.world, Looking);
    assert NodeIn(d, t, j, m, Looking);
    forall n | n in done ensures exists i :: NodeIn(d, t, i, n, Looking) {
      var i :| NodeIn(d, s, i, n, Looking);
      assert NodeIn(d, t, i, n, Looking);
    }
  }

  lemma RestStay(d: Deployment, s: State, j: NodeId, rest: seq<Member>)
    requires Shape(d, s) && rest != [] && UniqueUrls(rest)
    requires AllIn(d, s, rest, Idle) && NodeIn(d, s, j, rest[0], Idle)
    ensures var t := To(s, j, s.world, Looking);
            Shape(d, t) && AllIn(d, t, rest[1..], Idle)
  {
    var t := To(s, j, s.world, Looking);
    forall m | m in rest[1..] ensures exists i :: NodeIn(d, t, i, m, Idle) {
      var k :| 0 <= k < |rest[1..]| && rest[1..][k] == m;
      assert rest[k + 1] == m && m in rest && m.peerUrl != rest[0].peerUrl;
      var i :| NodeIn(d, s, i, m, Idle);
      assert NodeIn(d, t, i, m, Idle);
    }
  }

  ghost predicate CanDecide(d: Deployment, s: State, c: ClusterId)
  {
    Shape(d, s) && c in s.world.clusters && |s.world.clusters[c]| >= 2 && Live(s.world, c)
  }

  lemma OneDecides(d: Deployment, s: State, c: ClusterId, j: NodeId, done: seq<Member>, rest: seq<Member>)
    returns (steps: seq<Step>, t: State)
    requires CanDecide(d, s, c) && rest != [] && UniqueUrls(rest)
    requires AllIn(d, s, done, Looking) && AllIn(d, s, rest, Idle) && NodeIn(d, s, j, rest[0], Idle)
    ensures Run(d, s, steps, t) && CanDecide(d, t, c) && t.world == s.world
    ensures AllIn(d, t, done + [rest[0]], Looking) && AllIn(d, t, rest[1..], Idle)
  {
    steps, t := [BeginStop(j), Decide(j, Some(c))], To(s, j, s.world, Looking);
    StopDecides(d, s, j, c);
    DoneStay(d, s, j, done, rest[0]);
    RestStay(d, s, j, rest);
  }

  lemma {:induction false} AllDecide(d: Deployment, s: State, c: ClusterId, done: seq<Member>, rest: seq<Member>)
    returns (steps: seq<Step>, t: State)
    requires CanDecide(d, s, c) && UniqueUrls(rest)
    requires AllIn(d, s, done, Looking) && AllIn(d, s, rest, Idle)
    ensures Run(d, s, steps, t) && Shape(d, t) && t.world == s.world && AllIn(d, t, done + rest, Looking)
    decreases |rest|
  {
    if rest == [] {
      steps, t := [], s;
      assert done + rest == done;
    } else {
      assert rest[0] in rest;
      var j :| NodeIn(d, s, j, rest[0], Idle);
      var first, s1 := OneDecides(d, s, c, j, done, rest);
      var more;
      more, t := AllDecide(d, s1, c, done + [rest[0]], rest[1..]);
      steps := first + more;
      Refinement.RunConcat(d, s, first, s1, more, t);
      assert done + [rest[0]] + rest[1..] == done + rest;
    }
  }

  /** Stops of all members at once empty any membership of two or more while every process still runs; serially they
      cannot (Lifecycle.SerialStopsKeepNonEmpty). */
  lemma ConcurrentStopsEmpty(d: Deployment, s: State, c: ClusterId) returns (steps: seq<Step>, t: State)
    requires Ready(d, s, c) && |s.world.clusters[c]| >= 2 && AllIn(d, s, s.world.clusters[c], Idle)
    ensures Run(d, s, steps, t) && Emptied(t, c) && t.world.hosts == s.world.hosts
  {
    var ms := s.world.clusters[c];
    var decide, s1 := AllDecide(d, s, c, [], ms);
    assert [] + ms == ms;
    RunKeepsInv(d, s, decide, s1);
    forall m | m in ms ensures Doomed(d, s1, m) {
      var j :| NodeIn(d, s1, j, m, Looking);
      assert Removes(d, s1, j, m);
    }
    var leave;
    leave, t := DoomedRun(d, s1, c);
    steps := decide + leave;
    Refinement.RunConcat(d, s, decide, s1, leave, t);
  }

  /** With two live clusters, a list served by one and an add served by the other duplicate a URL. */
  lemma StrayAddDuplicates(d: Deployment, s: State, i: NodeId, c: ClusterId, e: ClusterId, id: string)
    requires Shape(d, s) && i in d && s.phase[i].Listing? && NewId(s.world, id) && AllUniqueUrls(s.world)
    requires c in s.world.clusters && Live(s.world, c) && MustAdd(s.world.clusters[c], d[i])
    requires e in s.world.clusters && Live(s.world, e) && HasUrl(s.world.clusters[e], d[i].url)
    ensures exists t :: Run(d, s, [List(i, Some(c)), Add(i, Some(e), id)], t) && !AllUniqueUrls(t.world)
  {
    var steps := [List(i, Some(c)), Add(i, Some(e), id)];
    var s1 := Next(d, s, steps[0]);
    assert s1.world == s.world;
    var t := Next(d, s1, steps[1]);
    AddKeepsUniqueExactly(d, s1, steps[1]);
    assert Run(d, t, steps[1..][1..], t);
    assert Run(d, s1, steps[1..], t);
  }
}
