/** Every deployment has a state with all nodes up, so what is proved about rolling updates is about something. */
module FleetUp {
  import opened Wrappers
  import opened Text
  import opened Fleet
  import opened Protocol
  import opened PeerUrls
  import opened Rolling
  import opened Quorum
  import opened RollingUpdate

  const THE_CLUSTER: ClusterId := 0
  const THE_PID: Pid := 1

  lemma {:induction false} Enumerate(keys: set<NodeId>) returns (order: seq<NodeId>)
    ensures forall i :: i in keys <==> i in order
    ensures forall j, k :: 0 <= j < k < |order| ==> order[j] != order[k]
  {
    if keys == {} {
      order := [];
    } else {
      var i :| i in keys;
      var rest := Enumerate(keys - {i});
      order := rest + [i];
    }
  }

  function MemberFor(d: Deployment, order: seq<NodeId>, k: nat): Member
    requires k < |order| && order[k] in d
  {
    Member(Decimal(k), d[order[k]].name, d[order[k]].url)
  }

  ghost predicate Lists(d: Deployment, order: seq<NodeId>)
  {
    && (forall i :: i in d <==> i in order)
    && (forall j, k :: 0 <= j < k < |order| ==> order[j] != order[k])
  }

  ghost function Members(d: Deployment, order: seq<NodeId>): (ms: seq<Member>)
    requires Lists(d, order)
    ensures |ms| == |order|
    ensures forall k :: 0 <= k < |order| ==> order[k] in d && ms[k] == MemberFor(d, order, k)
  {
    seq(|order|, k requires 0 <= k < |order| => assert order[k] in order; MemberFor(d, order, k))
  }

  function RunningHost(): Host
  {
    Host(map[THE_PID := THE_CLUSTER], Some(THE_CLUSTER), Some(Decimal(THE_PID)), [THE_PID], [])
  }

  ghost function AllUpState(d: Deployment, order: seq<NodeId>): State
    requires Lists(d, order)
  {
    var ms := Members(d, order);
    State(World(map[THE_CLUSTER := ms], map i | i in d :: RunningHost(), set m | m in ms :: m.id),
          map i | i in d :: Idle)
  }

  lemma MembersUnique(d: Deployment, order: seq<NodeId>)
    requires Distinct(d) && Lists(d, order)
    ensures Unique(Members(d, order))
  {
    var ms := Members(d, order);
    forall j, k | 0 <= j < k < |ms| ensures ms[j].id != ms[k].id && ms[j].peerUrl != ms[k].peerUrl {
      if Decimal(j) == Decimal(k) { DecimalInjective(j, k); }
    }
  }

  lemma MembersOwned(d: Deployment, order: seq<NodeId>, m: Member)
    requires Lists(d, order) && m in Members(d, order)
    ensures m.id != "" && Owned(d, m)
  {
    var k :| 0 <= k < |order| && Members(d, order)[k] == m;
    assert order[k] in d && m.peerUrl == d[order[k]].url;
  }

  lemma AllUpEntriesOk(d: Deployment, order: seq<NodeId>)
    requires Distinct(d) && Lists(d, order)
    ensures EntriesOk(d, AllUpState(d, order).world)
  {
    var w := AllUpState(d, order).world;
    var ms := Members(d, order);
    MembersUnique(d, order);
    forall c, m | Entry(w, c, m) ensures m.id != "" && m.id in w.usedIds && Owned(d, m) {
      assert m in ms;
      MembersOwned(d, order, m);
    }
    forall c, e, m, n | Entry(w, c, m) && Entry(w, e, n) && m.id == n.id ensures c == e && m == n {
      assert m in ms && n in ms;
    }
  }

  lemma NodeIsUp(d: Deployment, order: seq<NodeId>, i: NodeId)
    requires Distinct(d) && Lists(d, order) && i in d
    ensures Up(AllUpState(d, order).world, i, d[i], THE_CLUSTER)
  {
    var w := AllUpState(d, order).world;
    var k :| 0 <= k < |order| && order[k] == i;
    assert Entry(w, THE_CLUSTER, MemberFor(d, order, k)) by {
      assert Members(d, order)[k] == MemberFor(d, order, k);
    }
    assert RunsOnly(w.hosts[i], THE_PID, THE_CLUSTER);
  }

  // A quiet state with all nodes up in a sound cluster is one a rolling update can start from.

  lemma QuietInv(d: Deployment, s: State)
    requires Distinct(d) && Shape(d, s) && EntriesOk(d, s.world) && AllUniqueUrls(s.world) && AllIdle(d, s)
    ensures Inv(d, s) && UrlsOk(d, s) && OneBusy(d, s)
  {
  }

  lemma QuietNodes(d: Deployment, s: State, c: ClusterId)
    requires Shape(d, s) && AllIdle(d, s)
    requires forall i {:trigger Up(s.world, i, d[i], c)} :: i in d ==> Up(s.world, i, d[i], c)
    ensures NodesOk(d, s, c) && BusyHaveCompany(d, s, c)
  {
    forall i | i in d ensures NodeOk(s.world, i, d[i], s.phase[i], c) {
      assert Up(s.world, i, d[i], c);
    }
  }

  lemma QuietAllUp(d: Deployment, s: State, c: ClusterId)
    requires Shape(d, s) && AllIdle(d, s)
    requires forall i {:trigger Up(s.world, i, d[i], c)} :: i in d ==> Up(s.world, i, d[i], c)
    ensures AllUp(d, s, c) && AllButOneUp(d, s, c)
  {
    forall i | i in d ensures IdleAndUp(d, s, i, c) {
      assert Up(s.world, i, d[i], c);
    }
  }

  lemma AllUpSound(d: Deployment, order: seq<NodeId>)
    requires Distinct(d) && Lists(d, order)
    ensures var s := AllUpState(d, order);
            && Shape(d, s) && AllIdle(d, s) && EntriesOk(d, s.world) && AllUniqueUrls(s.world)
            && s.world.clusters.Keys == {THE_CLUSTER}
  {
    AllUpEntriesOk(d, order);
    MembersUnique(d, order);
  }

  /** For any number of nodes. */
  lemma AllUpStateExists(d: Deployment) returns (s: State)
    requires Distinct(d)
    ensures RollingState(d, s, THE_CLUSTER) && AllUp(d, s, THE_CLUSTER)
  {
    var order := Enumerate(d.Keys);
    s := AllUpState(d, order);
    AllUpSound(d, order);
    forall i | i in d ensures Up(s.world, i, d[i], THE_CLUSTER) {
      NodeIsUp(d, order, i);
    }
    QuietInv(d, s);
    QuietNodes(d, s, THE_CLUSTER);
    QuietAllUp(d, s, THE_CLUSTER);
  }

  /** And from it a rolling update of two or more nodes can be carried out in any order: a Stop and a Start of each
      node in turn. */
  lemma RollingUpdateExists(d: Deployment, order: seq<NodeId>) returns (s: State, steps: seq<Step>, t: State)
    requires Distinct(d) && |d.Keys| >= 2 && forall i :: i in order ==> i in d
    ensures RollingState(d, s, THE_CLUSTER) && AllUp(d, s, THE_CLUSTER)
    ensures RollingRun(d, s, steps, t, THE_CLUSTER)
    ensures RollingState(d, t, THE_CLUSTER) && AllUp(d, t, THE_CLUSTER)
    ensures Turns(steps) == Pairs(order)
  {
    s := AllUpStateExists(d);
    steps, t := RollAll(d, s, order, THE_CLUSTER);
  }
}
