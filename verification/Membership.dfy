/** What every interleaving of Starts and Stops keeps about the membership. */
module Membership {
  import opened Wrappers
  import opened Fleet
  import opened Application
  import opened Protocol

  // ---- one call at a time ----

  lemma AddEvolves(d: Deployment, w: World, i: NodeId, c: ClusterId, id: string)
    requires i in d && EntriesOk(d, w) && c in w.clusters && NewId(w, id)
    ensures MemberAdd(w, Some(c), id, d[i].url).Some?
    ensures var v := MemberAdd(w, Some(c), id, d[i].url).value; Evolves(d, w, v, i) && EntriesOk(d, v) && Persists(w, v)
  {
    var v := MemberAdd(w, Some(c), id, d[i].url).value;
    var own := Member(id, "", d[i].url);
    var ms := w.clusters[c];
    assert Owned(d, own);
    forall e, n | Entry(v, e, n) ensures Entry(w, e, n) || (e == c && n == own) {}
    forall e, m | Entry(w, e, m) ensures Entry(v, e, m) && SameEntry(m, m) {
      if e == c { assert m in ms + [own]; }
    }
    forall k | 0 <= k < |ms| ensures ms[k].id != id { assert Entry(w, c, ms[k]); }
  }

  lemma RemoveEvolves(d: Deployment, w: World, i: NodeId, served: Option<ClusterId>, id: string)
    requires i in d && EntriesOk(d, w)
    requires forall c, m :: Entry(w, c, m) && m.id == id ==> m.peerUrl == d[i].url
    requires MemberRemove(w, served, id).Some?
    ensures var v := MemberRemove(w, served, id).value; Evolves(d, w, v, i) && EntriesOk(d, v)
  {
    var c := served.value;
    var v := MemberRemove(w, served, id).value;
    WithoutIdUniqueIds(w.clusters[c], id);
    forall e, n | Entry(v, e, n) ensures Entry(w, e, n) && SameEntry(n, n) {}
    forall e, m | Entry(w, e, m) && m.peerUrl != d[i].url ensures Entry(v, e, m) && SameEntry(m, m) {}
  }

  lemma NamedElements(ms: seq<Member>, me: Identity)
    ensures forall n :: n in Named(ms, me) ==> exists m :: m in ms && SameEntry(m, n) && n == NamedAs(m, me)
    ensures forall m :: m in ms ==> NamedAs(m, me) in Named(ms, me)
  {
    var ns := Named(ms, me);
    forall n | n in ns ensures exists m :: m in ms && SameEntry(m, n) && n == NamedAs(m, me) {
      var k :| 0 <= k < |ns| && ns[k] == n;
      assert ms[k] in ms && SameEntry(ms[k], n);
    }
    forall m | m in ms ensures NamedAs(m, me) in ns {
      var k :| 0 <= k < |ms| && ms[k] == m;
      assert ns[k] == NamedAs(m, me);
    }
  }

  /** Publishing leaves the ids and URLs as they are. */
  lemma PublishedEntries(w: World, me: Identity, c: ClusterId)
    requires c in w.clusters
    ensures forall e, n :: Entry(Fleet.Publish(w, c, me), e, n) ==>
              exists m :: Entry(w, e, m) && SameEntry(m, n) && n == if e == c then NamedAs(m, me) else m
  {
    NamedElements(w.clusters[c], me);
    forall e, n | Entry(Fleet.Publish(w, c, me), e, n)
      ensures exists m :: Entry(w, e, m) && SameEntry(m, n) && n == if e == c then NamedAs(m, me) else m
    {
      if e == c {
        var m :| m in w.clusters[c] && SameEntry(m, n) && n == NamedAs(m, me);
        assert Entry(w, e, m);
      } else {
        assert Entry(w, e, n) && SameEntry(n, n);
      }
    }
  }

  lemma EntriesPublished(w: World, me: Identity, c: ClusterId)
    requires c in w.clusters
    ensures var v := Fleet.Publish(w, c, me);
            && Persists(w, v)
            && (forall e, m: Member :: m.peerUrl != me.url && Entry(w, e, m) ==> Entry(v, e, m))
            && (forall m: Member :: m.peerUrl == me.url && Entry(w, c, m) ==> Entry(v, c, m.(name := me.name)))
  {
    NamedElements(w.clusters[c], me);
    var v := Fleet.Publish(w, c, me);
    forall e, m | Entry(w, e, m)
      ensures Entry(v, e, if e == c then NamedAs(m, me) else m)
      ensures exists n :: Entry(v, e, n) && SameEntry(m, n)
    {
      var n := if e == c then NamedAs(m, me) else m;
      assert Entry(v, e, n) && SameEntry(m, n);
    }
  }

  function NamedAs(m: Member, me: Identity): Member
  {
    if m.peerUrl == me.url then m.(name := me.name) else m
  }

  lemma PublishKeepsEntriesOk(d: Deployment, w: World, i: NodeId, c: ClusterId)
    requires Distinct(d) && i in d && EntriesOk(d, w) && c in w.clusters
    ensures EntriesOk(d, Fleet.Publish(w, c, d[i]))
  {
    var v := Fleet.Publish(w, c, d[i]);
    PublishedEntries(w, d[i], c);
    forall e, n | Entry(v, e, n) ensures n.id != "" && n.id in v.usedIds && Owned(d, n) {
      var m :| Entry(w, e, m) && SameEntry(m, n) && n == if e == c then NamedAs(m, d[i]) else m;
      assert Owned(d, m);
    }
    forall e, f, m, n | Entry(v, e, m) && Entry(v, f, n) && m.id == n.id ensures e == f && m == n {
      var m0 :| Entry(w, e, m0) && SameEntry(m0, m) && m == if e == c then NamedAs(m0, d[i]) else m0;
      var n0 :| Entry(w, f, n0) && SameEntry(n0, n) && n == if f == c then NamedAs(n0, d[i]) else n0;
    }
    forall e | e in v.clusters ensures UniqueIds(v.clusters[e]) {
      assert UniqueIds(w.clusters[e]);
    }
  }

  lemma PublishEvolves(d: Deployment, w: World, i: NodeId, c: ClusterId)
    requires Distinct(d) && i in d && EntriesOk(d, w) && c in w.clusters
    ensures var v := Fleet.Publish(w, c, d[i]); Evolves(d, w, v, i) && EntriesOk(d, v) && Persists(w, v)
  {
    PublishKeepsEntriesOk(d, w, i, c);
    EntriesPublished(w, d[i], c);
    PublishedEntries(w, d[i], c);
  }

  lemma BootstrapEvolves(d: Deployment, w: World, v: World, i: NodeId, created: ClusterId, id: string)
    requires i in d && EntriesOk(d, w) && created !in w.clusters && NewId(w, id)
    requires v.clusters == w.clusters[created := [Member(id, d[i].name, d[i].url)]]
    requires v.usedIds == w.usedIds + {id}
    ensures Evolves(d, w, v, i) && EntriesOk(d, v) && Persists(w, v)
  {
    var own := Member(id, d[i].name, d[i].url);
    assert Owned(d, own);
    forall e, m | Entry(w, e, m) ensures Entry(v, e, m) && SameEntry(m, m) {}
    forall e, n | Entry(v, e, n) ensures Entry(w, e, n) || (e == created && n == own) {}
  }

  lemma NothingEvolves(d: Deployment, w: World, v: World, i: NodeId)
    requires i in d && EntriesOk(d, w) && v.clusters == w.clusters && v.usedIds == w.usedIds
    ensures Evolves(d, w, v, i) && EntriesOk(d, v) && Persists(w, v)
  {
    forall e, m | Entry(w, e, m) ensures Entry(v, e, m) && SameEntry(m, m) {}
    forall e, m | Entry(v, e, m) ensures Entry(w, e, m) && SameEntry(m, m) {}
  }

  lemma LaunchEvolves(d: Deployment, w: World, i: NodeId, plan: Plan, pid: Pid, created: ClusterId, id: string)
    requires i in d && i in w.hosts && EntriesOk(d, w)
    requires Bootstraps(w.hosts[i], plan) ==> created !in w.clusters && NewId(w, id)
    ensures var v := Fleet.Launch(w, i, d[i], plan, pid, created, id);
            Evolves(d, w, v, i) && EntriesOk(d, v) && Persists(w, v)
  {
    var v := Fleet.Launch(w, i, d[i], plan, pid, created, id);
    if Bootstraps(w.hosts[i], plan) { BootstrapEvolves(d, w, v, i, created, id); } else { NothingEvolves(d, w, v, i); }
  }

  // ---- every step ----

  ghost predicate Present(w: World, c: ClusterId, url: string)
  {
    exists m :: Entry(w, c, m) && m.peerUrl == url
  }

  lemma PersistsPresent(w: World, v: World, c: ClusterId, url: string)
    requires Present(w, c, url) && Persists(w, v)
    ensures Present(v, c, url)
  {
    var m :| Entry(w, c, m) && m.peerUrl == url;
    var n :| Entry(v, c, n) && SameEntry(m, n);
  }

  /** A node stays listed unless its own step drops an entry. */
  lemma PresentStays(d: Deployment, w: World, v: World, i: NodeId, j: NodeId, c: ClusterId)
    requires Distinct(d) && i in d && j in d && Evolves(d, w, v, i)
    requires Present(w, c, d[j].url) && (i == j ==> Persists(w, v))
    ensures Present(v, c, d[j].url)
  {
    if i == j {
      PersistsPresent(w, v, c, d[j].url);
    }
  }

  lemma StepEvolves(d: Deployment, s: State, step: Step)
    requires Inv(d, s) && Enabled(d, s, step)
    ensures Evolves(d, s.world, Next(d, s, step).world, step.node)
    ensures EntriesOk(d, Next(d, s, step).world)
    ensures !step.Remove? ==> Persists(s.world, Next(d, s, step).world)
  {
    var w, i, p, t := s.world, step.node, s.phase[step.node], Next(d, s, step);
    match step {
      case Add(_, served, id) =>
        if served.Some? { AddEvolves(d, w, i, served.value, id); } else { NothingEvolves(d, w, t.world, i); }
      case Launch(_, launched, created, id) =>
        if launched.Some? { LaunchEvolves(d, w, i, p.plan, launched.value, created, id); }
        else { NothingEvolves(d, w, t.world, i); }
      case Remove(_, served) =>
        if MemberRemove(w, served, p.id).Some? { RemoveEvolves(d, w, i, served, p.id); }
        else { NothingEvolves(d, w, t.world, i); }
      case Publish(_, c) => PublishEvolves(d, w, i, c);
      case _ => NothingEvolves(d, w, t.world, i);
    }
  }

  /** The looked-up id is an own one: names are never anyone else's. */
  lemma LookedUpIdIsOwn(d: Deployment, w: World, i: NodeId, served: Option<ClusterId>)
    requires Distinct(d) && i in d && EntriesOk(d, w)
    ensures var id := OwnId(Listed(w, served), d[i].name);
            id != "" ==>
              id in w.usedIds && forall c, m :: Entry(w, c, m) && m.id == id ==> m.peerUrl == d[i].url
  {
    var id := OwnId(Listed(w, served), d[i].name);
    if id != "" {
      var own :| own in w.clusters[served.value] && own.name == d[i].name && own.id == id;
      assert Entry(w, served.value, own);
      assert Owned(d, own);
    }
  }

  ghost predicate RemovalOk(d: Deployment, w: World, j: NodeId, id: string)
    requires j in d
  {
    id in w.usedIds && forall c, m :: Entry(w, c, m) && m.id == id ==> m.peerUrl == d[j].url
  }

  lemma RemovalStaysOk(d: Deployment, w: World, v: World, i: NodeId, j: NodeId, id: string)
    requires i in d && j in d && Evolves(d, w, v, i) && RemovalOk(d, w, j, id)
    ensures RemovalOk(d, v, j, id)
  {
    forall c, n | Entry(v, c, n) && n.id == id ensures n.peerUrl == d[j].url {
      var m :| Entry(w, c, m) && SameEntry(m, n);
    }
  }

  /** A step changes the phase of its own node only, and looking the id up is the way to a removal. */
  lemma PhaseChange(d: Deployment, s: State, step: Step)
    requires Shape(d, s) && Enabled(d, s, step)
    ensures var t := Next(d, s, step);
            && (forall j :: j in d && j != step.node ==> t.phase[j] == s.phase[j])
            && (t.phase[step.node] == s.phase[step.node]
                || !t.phase[step.node].Removing?
                || (step.Look? && t.phase[step.node].id == OwnId(Listed(s.world, step.served), d[step.node].name)))
  {
  }

  lemma RemovalsCarryOver(d: Deployment, s: State, t: State, i: NodeId)
    requires i in d && Inv(d, s) && Shape(d, t) && Evolves(d, s.world, t.world, i)
    requires forall j :: j in d && j != i ==> t.phase[j] == s.phase[j]
    requires t.phase[i] == s.phase[i] || !t.phase[i].Removing? || t.phase[i].id == ""
             || RemovalOk(d, s.world, i, t.phase[i].id)
    ensures RemovalsOk(d, t)
  {
    forall j | j in d && t.phase[j].Removing? && t.phase[j].id != ""
      ensures RemovalOk(d, t.world, j, t.phase[j].id)
    {
      assert RemovalOk(d, s.world, j, t.phase[j].id);
      RemovalStaysOk(d, s.world, t.world, i, j, t.phase[j].id);
    }
  }

  lemma RemovalsStayOk(d: Deployment, s: State, step: Step)
    requires Inv(d, s) && Enabled(d, s, step)
    ensures RemovalsOk(d, Next(d, s, step))
  {
    StepEvolves(d, s, step);
    PhaseChange(d, s, step);
    if step.Look? { LookedUpIdIsOwn(d, s.world, step.node, step.served); }
    RemovalsCarryOver(d, s, Next(d, s, step), step.node);
  }

  lemma StepKeepsInv(d: Deployment, s: State, step: Step)
    requires Inv(d, s) && Enabled(d, s, step)
    ensures Inv(d, Next(d, s, step))
  {
    StepEvolves(d, s, step);
    RemovalsStayOk(d, s, step);
  }

  /** In any interleaving: ids are never shared, every entry is some node's, and a removal in flight can
      only hit an own entry. */
  lemma {:induction false} RunKeepsInv(d: Deployment, s: State, steps: seq<Step>, t: State)
    requires Inv(d, s) && Run(d, s, steps, t)
    ensures Inv(d, t)
    decreases |steps|
  {
    if steps != [] {
      StepKeepsInv(d, s, steps[0]);
      RunKeepsInv(d, Next(d, s, steps[0]), steps[1..], t);
    }
  }

  /** The entry is still there, perhaps with its name published since. */
  ghost predicate StillListed(w: World, c: ClusterId, m: Member)
  {
    exists n :: Entry(w, c, n) && SameEntry(m, n)
  }

  lemma PersistsListed(w: World, v: World, c: ClusterId, m: Member)
    requires StillListed(w, c, m) && Persists(w, v)
    ensures StillListed(v, c, m)
  {
    var n :| Entry(w, c, n) && SameEntry(m, n);
    var o :| Entry(v, c, o) && SameEntry(n, o);
    assert SameEntry(m, o);
  }

  lemma ListedStays(d: Deployment, w: World, v: World, i: NodeId, j: NodeId, c: ClusterId, m: Member)
    requires Distinct(d) && i in d && j in d && Evolves(d, w, v, i)
    requires StillListed(w, c, m) && m.peerUrl == d[j].url && (i == j ==> Persists(w, v))
    ensures StillListed(v, c, m)
  {
    if i == j {
      PersistsListed(w, v, c, m);
    } else {
      var n :| Entry(w, c, n) && SameEntry(m, n);
      assert Entry(v, c, n);
    }
  }

  ghost function NoRemovalBy(j: NodeId): Condition
  {
    (s: State, step: Step) => !(step.Remove? && step.node == j)
  }

  /** In any interleaving, a node's entry stays as long as that node itself removes none. */
  lemma {:induction false} OthersNeverRemove(
      d: Deployment, s: State, steps: seq<Step>, t: State, j: NodeId, c: ClusterId, m: Member)
    requires Inv(d, s) && Run(d, s, steps, t)
    requires j in d && StillListed(s.world, c, m) && m.peerUrl == d[j].url
    requires Each(d, s, steps, NoRemovalBy(j))
    ensures StillListed(t.world, c, m)
    decreases |steps|
  {
    if steps != [] {
      StepKeepsInv(d, s, steps[0]);
      StepEvolves(d, s, steps[0]);
      ListedStays(d, s.world, Next(d, s, steps[0]).world, steps[0].node, j, c, m);
      OthersNeverRemove(d, Next(d, s, steps[0]), steps[1..], t, j, c, m);
    }
  }
}
