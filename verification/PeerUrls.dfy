/** No two entries of a cluster share a first peer URL, in any interleaving. */
module PeerUrls {
  import opened Wrappers
  import opened Fleet
  import opened Protocol
  import opened Membership

  ghost predicate AllUniqueUrls(w: World) { forall c :: c in w.clusters ==> UniqueUrls(w.clusters[c]) }

  /** A node about to add itself is not in the cluster that answered its list. */
  ghost predicate AddsOk(d: Deployment, s: State)
    requires Shape(d, s)
  {
    forall i :: i in d && s.phase[i].Adding? ==> Lacks(s.world, s.phase[i].cluster, d[i].url)
  }

  ghost predicate Lacks(w: World, c: ClusterId, url: string)
  {
    c in w.clusters && forall m :: Entry(w, c, m) ==> m.peerUrl != url
  }

  ghost predicate UrlsOk(d: Deployment, s: State)
    requires Shape(d, s)
  {
    AllUniqueUrls(s.world) && AddsOk(d, s)
  }

  /** The add is served by the cluster that served the list. */
  predicate SameServer(s: State, step: Step)
  {
    step.Add? && step.served.Some? && step.node in s.phase && s.phase[step.node].Adding? ==>
      step.served.value == s.phase[step.node].cluster
  }

  lemma AddUniqueExactly(ms: seq<Member>, own: Member)
    requires UniqueUrls(ms)
    ensures UniqueUrls(ms + [own]) <==> !HasUrl(ms, own.peerUrl)
  {
    var ns := ms + [own];
    if HasUrl(ms, own.peerUrl) {
      var m :| m in ms && m.peerUrl == own.peerUrl;
      var k :| 0 <= k < |ms| && ms[k] == m;
      assert ns[k].peerUrl == ns[|ms|].peerUrl;
    } else {
      forall k | 0 <= k < |ms| ensures ms[k].peerUrl != own.peerUrl {
        assert ms[k] in ms;
      }
    }
  }

  lemma GrownUniqueExactly(w: World, v: World, c: ClusterId, own: Member)
    requires AllUniqueUrls(w) && c in w.clusters
    requires v.clusters == w.clusters[c := w.clusters[c] + [own]]
    ensures AllUniqueUrls(v) <==> !HasUrl(w.clusters[c], own.peerUrl)
  {
    AddUniqueExactly(w.clusters[c], own);
    assert v.clusters[c] == w.clusters[c] + [own];
  }

  /** An add duplicates a URL exactly when the cluster that serves it has that URL already. */
  lemma AddKeepsUniqueExactly(d: Deployment, s: State, step: Step)
    requires Shape(d, s) && Enabled(d, s, step) && AllUniqueUrls(s.world)
    requires step.Add? && step.served.Some?
    ensures AllUniqueUrls(Next(d, s, step).world)
            <==> !HasUrl(s.world.clusters[step.served.value], d[step.node].url)
  {
    GrownUniqueExactly(s.world, Next(d, s, step).world, step.served.value,
                       Member(step.newId, "", d[step.node].url));
  }

  lemma SetMembersUnique(w: World, v: World, c: ClusterId, ms: seq<Member>)
    requires AllUniqueUrls(w) && UniqueUrls(ms) && v.clusters == w.clusters[c := ms]
    ensures AllUniqueUrls(v)
  {
  }

  lemma StepKeepsUnique(d: Deployment, s: State, step: Step)
    requires Shape(d, s) && Enabled(d, s, step) && UrlsOk(d, s) && SameServer(s, step)
    ensures AllUniqueUrls(Next(d, s, step).world)
  {
    var w, v, p := s.world, Next(d, s, step).world, s.phase[step.node];
    match step {
      case Add(i, served, _) =>
        if served.Some? {
          assert forall m :: m in w.clusters[served.value] ==> Entry(w, served.value, m);
          AddKeepsUniqueExactly(d, s, step);
        }
      case Remove(i, served) =>
        if MemberRemove(w, served, p.id).Some? {
          WithoutIdUniqueUrls(w.clusters[served.value], p.id);
          SetMembersUnique(w, v, served.value, WithoutId(w.clusters[served.value], p.id));
        }
      case Publish(i, c) =>
        assert UniqueUrls(w.clusters[c]);
        SetMembersUnique(w, v, c, Named(w.clusters[c], d[i]));
      case Launch(i, launched, created, id) =>
        if launched.Some? && Bootstraps(w.hosts[i], p.plan) {
          SetMembersUnique(w, v, created, [Member(id, d[i].name, d[i].url)]);
        }
      case _ => assert v.clusters == w.clusters;
    }
  }

  /** Only an own step brings in an entry with the own URL. */
  lemma LacksStays(d: Deployment, w: World, v: World, i: NodeId, j: NodeId, c: ClusterId)
    requires Distinct(d) && i in d && j in d && i != j
    requires Evolves(d, w, v, i) && Lacks(w, c, d[j].url)
    ensures Lacks(v, c, d[j].url)
  {
    forall n | Entry(v, c, n) ensures n.peerUrl != d[j].url {
      if m :| Entry(w, c, m) && SameEntry(m, n) {
        assert m.peerUrl != d[j].url;
      }
    }
  }

  lemma PublishBringsNoUrl(w: World, me: Identity, c: ClusterId, e: ClusterId, url: string)
    requires c in w.clusters && Lacks(w, e, url)
    ensures Lacks(Fleet.Publish(w, c, me), e, url)
  {
    PublishedEntries(w, me, c);
  }

  lemma ListedLacks(w: World, failures: nat, served: Option<ClusterId>, self: Identity)
    ensures var p := ListPhase(w, failures, served, self); p.Adding? ==> Lacks(w, p.cluster, self.url)
  {
    var p := ListPhase(w, failures, served, self);
    if p.Adding? {
      assert forall m :: Entry(w, p.cluster, m) ==> m in w.clusters[p.cluster];
    }
  }

  lemma OwnAddOk(d: Deployment, s: State, step: Step)
    requires Shape(d, s) && Enabled(d, s, step)
    requires s.phase[step.node].Adding? ==> Lacks(s.world, s.phase[step.node].cluster, d[step.node].url)
    ensures var p := Next(d, s, step).phase[step.node];
            p.Adding? ==> Lacks(Next(d, s, step).world, p.cluster, d[step.node].url)
  {
    var w, i, p := s.world, step.node, s.phase[step.node];
    if step.Publish? {
      if p.Adding? { PublishBringsNoUrl(w, d[i], step.cluster, p.cluster, d[i].url); }
    } else if step.List? {
      ListedLacks(w, p.failures, step.served, d[i]);
    } else if step.Exit? {
      assert Next(d, s, step).world.clusters == w.clusters;
    }
  }

  lemma AddsStayOk(d: Deployment, s: State, t: State, i: NodeId)
    requires i in d && Inv(d, s) && Shape(d, t) && AddsOk(d, s) && Evolves(d, s.world, t.world, i)
    requires forall j :: j in d && j != i ==> t.phase[j] == s.phase[j]
    requires t.phase[i].Adding? ==> Lacks(t.world, t.phase[i].cluster, d[i].url)
    ensures AddsOk(d, t)
  {
    forall j | j in d && t.phase[j].Adding? ensures Lacks(t.world, t.phase[j].cluster, d[j].url) {
      if j != i {
        LacksStays(d, s.world, t.world, i, j, s.phase[j].cluster);
      }
    }
  }

  lemma StepKeepsUrls(d: Deployment, s: State, step: Step)
    requires Inv(d, s) && Enabled(d, s, step) && UrlsOk(d, s) && SameServer(s, step)
    ensures UrlsOk(d, Next(d, s, step))
  {
    StepKeepsUnique(d, s, step);
    StepEvolves(d, s, step);
    PhaseChange(d, s, step);
    OwnAddOk(d, s, step);
    AddsStayOk(d, s, Next(d, s, step), step.node);
  }

  /** In any interleaving, after any failed or repeated Starts, peer URLs stay unique, provided each add
      is served by the cluster that served the list before it. */
  lemma {:induction false} RunKeepsUrlsUnique(d: Deployment, s: State, steps: seq<Step>, t: State)
    requires Inv(d, s) && UrlsOk(d, s) && Run(d, s, steps, t) && Each(d, s, steps, SameServer)
    ensures Inv(d, t) && UrlsOk(d, t)
    decreases |steps|
  {
    if steps != [] {
      StepKeepsInv(d, s, steps[0]);
      StepKeepsUrls(d, s, steps[0]);
      RunKeepsUrlsUnique(d, Next(d, s, steps[0]), steps[1..], t);
    }
  }
}
