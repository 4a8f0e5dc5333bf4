/** Deciding how etcd joins: etcdfab/cluster/controller.go. */
module ClusterController {
  import opened Wrappers
  import opened Text
  import opened Fleet
  import opened Site

  const MEMBER_LIST_TRIES := 5
  const RETRY_SLEEP := 1
  const MEMBER_ADD_SLEEP := 2

  /** The member list the retry loop ends with, how often it failed, and who served it. */
  datatype ListResult = ListResult(failures: nat, prior: seq<Member>, cluster: Option<ClusterId>)

  /** The retry loop from its k-th try on. */
  function ListFrom(w: World, listed: nat -> Option<ClusterId>, k: nat): (r: ListResult)
    requires k <= MEMBER_LIST_TRIES
    ensures k <= r.failures <= MEMBER_LIST_TRIES
    ensures forall j :: k <= j < r.failures ==> Listed(w, listed(j)).None?
    ensures r.failures < MEMBER_LIST_TRIES ==> r.cluster == listed(r.failures) && Listed(w, r.cluster) == Some(r.prior)
    ensures r.failures == MEMBER_LIST_TRIES ==> r.cluster.None? && r.prior == []
    decreases MEMBER_LIST_TRIES - k
  {
    if k == MEMBER_LIST_TRIES then ListResult(k, [], None)
    else match Listed(w, listed(k))
      case Some(ms) => ListResult(k, ms, listed(k))
      case None => ListFrom(w, listed, k + 1)
  }

  function EntryText(name: string, url: string): string { name + "=" + url }

  function Entries(ms: seq<Member>): (r: seq<string>)
    ensures |r| == |ms|
    ensures forall k :: 0 <= k < |ms| ==> r[k] == EntryText(ms[k].name, ms[k].peerUrl)
  {
    seq(|ms|, k requires 0 <= k < |ms| => EntryText(ms[k].name, ms[k].peerUrl))
  }

  /** The prior entries in order, then the own one unless some prior first peer URL equals its URL. */
  function InitialEntries(prior: seq<Member>, self: Identity): seq<string>
  {
    Entries(prior) + if HasUrl(prior, self.url) then [] else [EntryText(self.name, self.url)]
  }

  function PlanFor(prior: seq<Member>, cluster: Option<ClusterId>, self: Identity): Plan
    requires prior != [] ==> cluster.Some?
  {
    var members := Join(InitialEntries(prior, self), ",");
    if prior == [] then NewCluster(members) else ExistingCluster(members, cluster.value)
  }

  predicate MustAdd(prior: seq<Member>, self: Identity) { prior != [] && !HasUrl(prior, self.url) }

  /** How GetInitialClusterState ends; without a plan it returns the MemberAdd error. */
  datatype Outcome = Outcome(world: World, plan: Option<Plan>, slept: nat)

  function InitialClusterState(w: World, self: Identity, a: StartAnswers): (r: Outcome)
    ensures r.world.hosts == w.hosts
  {
    var l := ListFrom(w, a.listed, 0);
    if MustAdd(l.prior, self) then
      match MemberAdd(w, a.added, a.newId, self.url)
      case None => Outcome(w, None, l.failures * RETRY_SLEEP)
      case Some(w1) =>
        Outcome(w1, Some(PlanFor(l.prior, l.cluster, self)), l.failures * RETRY_SLEEP + MEMBER_ADD_SLEEP)
    else Outcome(w, Some(PlanFor(l.prior, l.cluster, self)), l.failures * RETRY_SLEEP)
  }

  /** The retry loop over MemberList. */
  method ListWithRetries(site: Site, listed: nat -> Option<ClusterId>)
    returns (prior: seq<Member>, cluster: Option<ClusterId>)
    modifies site`slept
    ensures var l := ListFrom(site.world, listed, 0);
            prior == l.prior && cluster == l.cluster && site.slept == old(site.slept) + l.failures * RETRY_SLEEP
  {
    ghost var l := ListFrom(site.world, listed, 0);
    prior, cluster := [], None;
    var i := 0;
    while i < MEMBER_LIST_TRIES
      invariant 0 <= i <= MEMBER_LIST_TRIES
      invariant l == ListFrom(site.world, listed, i)
      invariant site.slept == old(site.slept) + i * RETRY_SLEEP
      invariant prior == [] && cluster == None
    {
      var ok;
      prior, ok := site.MemberList(listed(i));
      if ok {
        cluster := listed(i);
        return;
      }
      site.Sleep(RETRY_SLEEP);
      i := i + 1;
    }
  }

  /** The loop over the prior members: their entries, and whether the own peer URL is among them. */
  method CollectEntries(prior: seq<Member>, self: Identity)
    returns (members: seq<string>, selfIsPartOfPriorMembers: bool)
    ensures members == Entries(prior)
    ensures selfIsPartOfPriorMembers <==> HasUrl(prior, self.url)
  {
    members, selfIsPartOfPriorMembers := [], false;
    for j := 0 to |prior|
      invariant members == Entries(prior[..j])
      invariant selfIsPartOfPriorMembers <==> HasUrl(prior[..j], self.url)
    {
      assert prior[..j + 1] == prior[..j] + [prior[j]];
      members := members + [EntryText(prior[j].name, prior[j].peerUrl)];
      if prior[j].peerUrl == self.url {
        selfIsPartOfPriorMembers := true;
      }
    }
    assert prior[..|prior|] == prior;
  }

  method GetInitialClusterState(site: Site, a: StartAnswers) returns (plan: Option<Plan>)
    modifies site
    ensures var o := InitialClusterState(old(site.world), site.self, a);
            site.world == o.world && plan == o.plan && site.slept == old(site.slept) + o.slept
  {
    var prior, cluster := ListWithRetries(site, a.listed);
    var members, selfIsPartOfPriorMembers := CollectEntries(prior, site.self);
    if !selfIsPartOfPriorMembers {
      if |prior| > 0 {
        var ok := site.AddMember(a.added, a.newId, site.self.url);
        if !ok {
          return None;
        }
        site.Sleep(MEMBER_ADD_SLEEP);
      }
      members := members + [EntryText(site.self.name, site.self.url)];
    }
    assert members == InitialEntries(prior, site.self);
    var text := Join(members, ",");
    return Some(if |prior| > 0 then ExistingCluster(text, cluster.value) else NewCluster(text));
  }

  // ---- the initial-cluster string ----

  function Pairs(ms: seq<Member>): (r: seq<(string, string)>)
    ensures |r| == |ms|
    ensures forall k :: 0 <= k < |ms| ==> r[k] == (ms[k].name, ms[k].peerUrl)
  {
    seq(|ms|, k requires 0 <= k < |ms| => (ms[k].name, ms[k].peerUrl))
  }

  /** Split on commas, then each part at its first equals sign. */
  function Decode(members: string): seq<Option<(string, string)>>
  {
    var parts := Split(members, ',');
    seq(|parts|, k requires 0 <= k < |parts| => CutFirst(parts[k], '='))
  }

  function Somes(ps: seq<(string, string)>): (r: seq<Option<(string, string)>>)
    ensures |r| == |ps|
    ensures forall k :: 0 <= k < |ps| ==> r[k] == Some(ps[k])
  {
    seq(|ps|, k requires 0 <= k < |ps| => Some(ps[k]))
  }

  predicate Printable(name: string, url: string) { ',' !in name && '=' !in name && ',' !in url }

  predicate AllPrintable(ms: seq<Member>)
  {
    forall k :: 0 <= k < |ms| ==> Printable(ms[k].name, ms[k].peerUrl)
  }

  /** The string gives back the prior members in order, and the own pair iff its URL was not there. */
  lemma InitialClusterRoundTrip(prior: seq<Member>, cluster: Option<ClusterId>, self: Identity)
    requires prior != [] ==> cluster.Some?
    requires AllPrintable(prior) && Printable(self.name, self.url)
    ensures Decode(PlanFor(prior, cluster, self).members) ==
            Somes(Pairs(prior) + if HasUrl(prior, self.url) then [] else [(self.name, self.url)])
  {
    var entries := InitialEntries(prior, self);
    var pairs := Pairs(prior) + if HasUrl(prior, self.url) then [] else [(self.name, self.url)];
    assert |entries| > 0 by {
      if prior == [] { assert !HasUrl(prior, self.url); }
    }
    forall k | 0 <= k < |entries|
      ensures ',' !in entries[k] && CutFirst(entries[k], '=') == Some(pairs[k])
    {
      CutFirstAt(pairs[k].0, '=', pairs[k].1);
    }
    SplitJoin(entries, ',');
  }

  /** Whether the own prior entries already carry the own name. */
  predicate OwnNamePublished(prior: seq<Member>, self: Identity)
  {
    forall m :: m in prior && m.peerUrl == self.url ==> m.name == self.name
  }

  /** The string describes the membership etcd ends up with, once it has published its name, exactly
      when no earlier failed start left an unnamed own entry behind. */
  lemma PlanDescribesMembership(w: World, self: Identity, a: StartAnswers)
    requires var l := ListFrom(w, a.listed, 0);
             && l.prior != [] && AllPrintable(l.prior) && Printable(self.name, self.url)
             && a.added == l.cluster
    ensures var l := ListFrom(w, a.listed, 0);
            var o := InitialClusterState(w, self, a);
            && o.plan.Some?
            && (Decode(o.plan.value.members) == Somes(Pairs(Named(o.world.clusters[l.cluster.value], self)))
                <==> OwnNamePublished(l.prior, self))
  {
    var l := ListFrom(w, a.listed, 0);
    var o := InitialClusterState(w, self, a);
    InitialClusterRoundTrip(l.prior, l.cluster, self);
    var after := Named(o.world.clusters[l.cluster.value], self);
    var decoded := Pairs(l.prior) + if HasUrl(l.prior, self.url) then [] else [(self.name, self.url)];
    assert |after| == |decoded|;
    if OwnNamePublished(l.prior, self) {
      assert forall k :: 0 <= k < |l.prior| ==> l.prior[k] in l.prior;
      assert Pairs(after) == decoded;
    } else {
      var m :| m in l.prior && m.peerUrl == self.url && m.name != self.name;
      var k :| 0 <= k < |l.prior| && l.prior[k] == m;
      assert Somes(Pairs(after))[k] != Somes(decoded)[k];
    }
  }
}
