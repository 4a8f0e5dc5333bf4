/** From configurations to a deployment, and the two ways a node looks for its own entry: Start compares
    peer URLs (etcdfab/cluster/controller.go), the removal compares names (etcdfab/application/application.go). */
module Identities {
  import opened Wrappers
  import Config
  import opened Fleet
  import opened Application
  import opened Protocol

  type Configs = map<NodeId, Config.Config>

  function IdentityOf(c: Config.Config): Identity { Identity(c.NodeName(), c.AdvertisePeerURL()) }

  function DeploymentOf(configs: Configs): Deployment
  {
    map i | i in configs :: IdentityOf(configs[i])
  }

  ghost predicate OneSuffix(configs: Configs)
  {
    forall i, j :: i in configs && j in configs ==> configs[i].dnsSuffix == configs[j].dnsSuffix
  }

  /** Two nodes are told apart by their normalised name and index, and without TLS also by their address. */
  predicate Apart(a: Config.Config, b: Config.Config)
  {
    && Config.Canonical(a) != Config.Canonical(b)
    && (!a.peerRequireSSL && !b.peerRequireSSL ==> a.externalIP != b.externalIP)
  }

  predicate Differ(a: Identity, b: Identity) { a.name != b.name && a.url != b.url }

  lemma ApartExactly(a: Config.Config, b: Config.Config)
    requires a.dnsSuffix == b.dnsSuffix
    ensures Apart(a, b) <==> Differ(IdentityOf(a), IdentityOf(b))
  {
    Config.NodeNameInjective(a, b);
    Config.PeerURLInjective(a, b);
  }

  lemma NameNonEmpty(c: Config.Config)
    ensures IdentityOf(c).name != ""
  {
    Config.NodeNameCanonical(c);
  }

  lemma DistinctIfDiffer(d: Deployment)
    requires forall i :: i in d ==> d[i].name != ""
    ensures Distinct(d) <==> forall i, j :: i in d && j in d && i != j ==> Differ(d[i], d[j])
  {
  }

  ghost predicate PairwiseApart(configs: Configs)
  {
    forall i, j :: i in configs && j in configs && i != j ==> Apart(configs[i], configs[j])
  }

  lemma DifferExactly(configs: Configs, d: Deployment, i: NodeId, j: NodeId)
    requires OneSuffix(configs) && d == DeploymentOf(configs) && i in configs && j in configs
    ensures d[i].name != ""
    ensures Apart(configs[i], configs[j]) <==> Differ(d[i], d[j])
  {
    NameNonEmpty(configs[i]);
    ApartExactly(configs[i], configs[j]);
  }

  /** Names and URLs tell the nodes of a deployment apart exactly if its configurations are pairwise apart. */
  lemma DistinctExactly(configs: Configs)
    requires OneSuffix(configs)
    ensures Distinct(DeploymentOf(configs)) <==> PairwiseApart(configs)
  {
    var d := DeploymentOf(configs);
    assert d.Keys == configs.Keys;
    forall i | i in d ensures d[i].name != "" { DifferExactly(configs, d, i, i); }
    DistinctIfDiffer(d);
    if Distinct(d) {
      forall i, j | i in configs && j in configs && i != j ensures Apart(configs[i], configs[j]) {
        assert Differ(d[i], d[j]);
        DifferExactly(configs, d, i, j);
      }
    } else {
      var i, j :| i in d && j in d && i != j && !Differ(d[i], d[j]);
      DifferExactly(configs, d, i, j);
      assert !Apart(configs[i], configs[j]);
    }
  }

  // ---- by URL and by name ----

  lemma {:induction false} OwnIdOf(ms: seq<Member>, name: string, m: Member)
    requires m in ms && m.name == name
    requires forall n :: n in ms && n.name == name ==> n == m
    ensures LastWithName(ms, name) == m.id
  {
    if ms[|ms| - 1].name != name {
      var before := ms[..|ms| - 1];
      assert ms == before + [ms[|ms| - 1]];
      OwnIdOf(before, name, m);
    }
  }

  /** Where every entry belongs to some node, a name other than the empty one marks the same entries as a URL. */
  lemma NameMarksUrl(d: Deployment, i: NodeId, m: Member)
    requires Distinct(d) && i in d && Owned(d, m)
    ensures m.name == d[i].name ==> m.peerUrl == d[i].url
    ensures m.peerUrl == d[i].url ==> m.name == "" || m.name == d[i].name
  {
  }

  lemma SameUrlSameEntry(ms: seq<Member>, m: Member, n: Member)
    requires UniqueUrls(ms) && m in ms && n in ms
    ensures m.peerUrl == n.peerUrl ==> m == n
  {
  }

  /** In a list of a reachable state, the removal looks up the entry Start recognises exactly if that entry's
      name has been published; otherwise it asks to remove the empty id. */
  lemma OwnEntryAgreesExactly(d: Deployment, s: State, i: NodeId, c: ClusterId, m: Member)
    requires Inv(d, s) && i in d && c in s.world.clusters && UniqueUrls(s.world.clusters[c])
    requires m in s.world.clusters[c] && m.peerUrl == d[i].url
    ensures var id := OwnId(Listed(s.world, Some(c)), d[i].name);
            (id == m.id <==> m.name == d[i].name) && (id == "" <==> m.name == "")
  {
    var ms := s.world.clusters[c];
    assert Entry(s.world, c, m);
    NameMarksUrl(d, i, m);
    forall n | n in ms && n.name == d[i].name ensures n == m {
      assert Entry(s.world, c, n);
      NameMarksUrl(d, i, n);
      SameUrlSameEntry(ms, m, n);
    }
    if m.name == d[i].name {
      OwnIdOf(ms, d[i].name, m);
    }
  }

  /** And without an entry recognised by Start there is none to remove. */
  lemma NoEntryAgrees(d: Deployment, s: State, i: NodeId, c: ClusterId)
    requires Inv(d, s) && i in d && c in s.world.clusters
    requires !HasUrl(s.world.clusters[c], d[i].url)
    ensures OwnId(Listed(s.world, Some(c)), d[i].name) == ""
  {
    var ms := s.world.clusters[c];
    forall n | n in ms ensures n.name != d[i].name {
      assert Entry(s.world, c, n);
      NameMarksUrl(d, i, n);
    }
  }
}
