/** What a whole Start or Stop leaves behind and which error it returns, told by the answers alone. */
module Outcomes {
  import opened Wrappers
  import opened Text
  import opened Fleet
  import opened Site
  import opened ClusterController
  import opened SyncController
  import opened Application
  import opened Lifecycle

  // ---- conditions on the answers ----

  /** The pid file names a process of the host. */
  predicate NamesProcess(h: Host, pid: Pid)
  {
    h.pidFile.Some? && Atoi(h.pidFile.value) == Some(pid) && pid in h.procs
  }

  ghost predicate NamesSome(h: Host) { exists pid :: NamesProcess(h, pid) }

  /** One of the first twenty polls of the own endpoint succeeds. */
  ghost predicate Syncs(a: StartAnswers) { a.selfClient && exists k :: 0 <= k < 20 && a.keys(k) }

  /** The member add is not needed, or a cluster answers it. */
  predicate AddSettled(w: World, self: Identity, a: StartAnswers)
  {
    var prior := ListFrom(w, a.listed, 0).prior;
    prior == [] || HasUrl(prior, self.url) || (a.added.Some? && a.added.value in w.clusters)
  }

  /** The cluster etcd is launched into: that of the data directory, else the listed one, else a new one. */
  function Into(w: World, i: NodeId, a: StartAnswers): ClusterId
    requires i in w.hosts
  {
    var l := ListFrom(w, a.listed, 0);
    if w.hosts[i].data.Some? then w.hosts[i].data.value
    else if l.prior != [] then l.cluster.value
    else a.created
  }

  lemma SyncsExactly(a: StartAnswers)
    ensures Verify(a.selfClient, a.keys).synced <==> Syncs(a)
  {
    var v := Verify(a.selfClient, a.keys);
    var last := a.keys(v.slept);
    assert MAX_SYNC_CALLS == 20;
  }

  lemma LaunchesExactly(w: World, i: NodeId, self: Identity, a: StartAnswers)
    requires i in w.hosts
    ensures Launches(w, self, a) <==> a.configured && AddSettled(w, self, a) && a.launched.Some?
    ensures Launches(w, self, a) ==>
              Target(w.hosts[i], InitialClusterState(w, self, a).plan.value, a.created) == Into(w, i, a)
  {
  }

  // ---- the host ----

  /** Taking a host down: the named process is killed, the data directory emptied, the pid file removed. */
  ghost predicate DownFrom(h: Host, a: StopAnswers, r: Host)
  {
    && (forall pid :: pid in r.procs <==> pid in h.procs && !NamesProcess(h, pid))
    && (forall pid :: pid in r.procs ==> r.procs[pid] == h.procs[pid])
    && r.data == (if a.wiped then None else h.data)
    && r.pidFile == (if NamesSome(h) && a.unlinked then None else h.pidFile)
    && r.started == h.started
    && (NamesSome(h) ==> r.killed == h.killed + [Atoi(h.pidFile.value).value])
    && (!NamesSome(h) ==> r.killed == h.killed)
  }

  lemma NamesExactly(h: Host)
    ensures PidToKill(h).Some? <==> NamesSome(h)
    ensures PidToKill(h).Some? ==> NamesProcess(h, PidToKill(h).value)
    ensures forall pid: Pid :: NamesProcess(h, pid) ==> PidToKill(h) == Some(pid)
  {
    if PidToKill(h).Some? { assert NamesProcess(h, PidToKill(h).value); }
  }

  lemma TakenDownExactly(h: Host, a: StopAnswers)
    ensures DownFrom(h, a, TakenDown(h, a))
  {
    NamesExactly(h);
    NamesExactly(Wiped(h, a.wiped));
    assert forall pid: Pid :: NamesProcess(Wiped(h, a.wiped), pid) <==> NamesProcess(h, pid);
  }

  /** A configured Stop takes its host down, and no Stop changes another host. */
  lemma StopLeavesHost(w: World, i: NodeId, self: Identity, a: StopAnswers)
    requires i in w.hosts
    ensures var hosts := Stop(w, i, self, a).world.hosts;
            && i in hosts && hosts == w.hosts[i := hosts[i]]
            && (if a.configured then DownFrom(w.hosts[i], a, hosts[i]) else hosts[i] == w.hosts[i])
  {
    TakenDownExactly(w.hosts[i], a);
    assert w.hosts[i := w.hosts[i]] == w.hosts;
  }

  /** The host while the launched etcd runs. */
  function WithEtcd(h: Host, pid: Pid, c: ClusterId): Host
  {
    Host(h.procs[pid := c], Some(c), h.pidFile, h.started + [pid], h.killed)
  }

  /** A Start leaves its host alone, or with the launched etcd and its pid, or taken down again. */
  lemma StartLeavesHost(w: World, i: NodeId, self: Identity, a: StartAnswers)
    requires i in w.hosts
    ensures var hosts := Start(w, i, self, a).world.hosts;
            && i in hosts && hosts == w.hosts[i := hosts[i]]
            && if !(a.configured && AddSettled(w, self, a) && a.launched.Some?) then hosts[i] == w.hosts[i]
               else
                 var h := WithEtcd(w.hosts[i], a.launched.value, Into(w, i, a));
                 if !Syncs(a) then DownFrom(h, a.rollback, hosts[i])
                 else hosts[i] == if a.pidWritten then h.(pidFile := Some(Decimal(a.launched.value))) else h
  {
    SyncsExactly(a);
    LaunchesExactly(w, i, self, a);
    StartActsAsEvent(w, i, self, a);
    assert w.hosts[i := w.hosts[i]] == w.hosts;
    if Launches(w, self, a) {
      TakenDownExactly(WithEtcd(w.hosts[i], a.launched.value, Into(w, i, a)), a.rollback);
    } else {
      UnlaunchedStart(w, i, self, a);
    }
  }

  // ---- the data directory ----

  /** A Start that fails to sync empties the data directory if it can; else it names the cluster launched into. */
  lemma DataAfterStart(w: World, i: NodeId, self: Identity, a: StartAnswers)
    requires i in w.hosts
    ensures Start(w, i, self, a).world.hosts[i].data ==
            if !(a.configured && AddSettled(w, self, a) && a.launched.Some?) then w.hosts[i].data
            else if !Syncs(a) && a.rollback.wiped then None
            else Some(Into(w, i, a))
  {
    StartLeavesHost(w, i, self, a);
  }

  lemma DataAfterStop(w: World, i: NodeId, self: Identity, a: StopAnswers)
    requires i in w.hosts
    ensures Stop(w, i, self, a).world.hosts[i].data ==
            if a.configured && a.wiped then None else w.hosts[i].data
  {
    StopLeavesHost(w, i, self, a);
  }

  // ---- the membership ----

  /** A Stop by one cluster, calls to which may fail: the own entry goes if all three calls are answered, the own
      name is listed, and another one is; else nothing does. */
  lemma StopExact(w: World, i: NodeId, self: Identity, a: StopAnswers, c: ClusterId)
    requires i in w.hosts && c in w.clusters && SoundMembers(w.clusters[c], self)
    requires a.decided in {None, Some(c)} && a.relisted in {None, Some(c)} && a.removed in {None, Some(c)}
    ensures var r, ms := Stop(w, i, self, a), w.clusters[c];
            var answered := a.decided.Some? && a.relisted.Some? && a.removed.Some?;
            && r.slept == 0 && r.world.usedIds == w.usedIds
            && r.world.clusters ==
               if a.configured && answered && NameListed(ms, self.name) && exists m :: m in ms && m.name != self.name
               then w.clusters[c := Others(ms, self.url)]
               else w.clusters
  {
    var ms := w.clusters[c];
    TeardownExact(ms, self.name);
    OneOwnName(ms, self);
    if a.relisted.Some? && a.removed.Some? {
      RemoveSelfExact(w, c, self, a);
      if !NameListed(ms, self.name) { NothingToRemove(w, self, a, c); }
    }
  }

  /** Entries with the own name are one entry. */
  lemma OneOwnName(ms: seq<Member>, self: Identity)
    requires SoundMembers(ms, self)
    ensures forall m, n :: m in ms && n in ms && m.name == self.name && n.name == self.name ==> m == n
  {
    forall m, n | m in ms && n in ms && m.name == self.name && n.name == self.name ensures m == n {
      UniqueElements(ms, m, n);
    }
  }

  /** What stays without the own URL: the other entries, in order. */
  lemma {:induction false} OthersExactly(ms: seq<Member>, url: string)
    ensures forall m :: m in Others(ms, url) <==> m in ms && m.peerUrl != url
    ensures forall a, b :: ms == a + b ==> Others(ms, url) == Others(a, url) + Others(b, url)
    ensures (forall m :: m in ms ==> m.peerUrl != url) ==> Others(ms, url) == ms
  {
    if ms != [] {
      OthersExactly(ms[1..], url);
      assert ms == [ms[0]] + ms[1..];
    }
    forall a, b | ms == a + b ensures Others(ms, url) == Others(a, url) + Others(b, url) {
      OthersConcat(a, b, url);
    }
  }

  /** What a Start that ends with etcd running leaves of the cluster that serves it: its entry, named if announced. */
  lemma StartJoins(w: World, i: NodeId, self: Identity, a: StartAnswers, c: ClusterId)
    requires i in w.hosts && c in w.clusters && w.clusters[c] != [] && ListFrom(w, a.listed, 0).cluster == Some(c)
    requires a.configured && a.launched.Some? && Syncs(a) && a.added == Some(c) && w.hosts[i].data in {None, Some(c)}
    ensures var ms := w.clusters[c];
            var joined := if HasUrl(ms, self.url) then ms else ms + [Member(a.newId, "", self.url)];
            var r := Start(w, i, self, a);
            && r.world.clusters.Keys == w.clusters.Keys && |r.world.clusters[c]| == |joined|
            && (forall e :: e in w.clusters && e != c ==> r.world.clusters[e] == w.clusters[e])
            && forall k :: 0 <= k < |joined| ==>
                 r.world.clusters[c][k] == if a.published && joined[k].peerUrl == self.url
                                           then Member(joined[k].id, self.name, self.url) else joined[k]
  {
    SyncsExactly(a);
    PlannedToJoin(w, i, self, a, c);
    var o := InitialClusterState(w, self, a);
    StartSyncs(w, i, self, a);
  }

  lemma PlannedToJoin(w: World, i: NodeId, self: Identity, a: StartAnswers, c: ClusterId)
    requires i in w.hosts && c in w.clusters && w.clusters[c] != [] && ListFrom(w, a.listed, 0).cluster == Some(c)
    requires a.added == Some(c) && w.hosts[i].data in {None, Some(c)}
    ensures var o := InitialClusterState(w, self, a);
            && o.plan.Some? && o.plan.value.ExistingCluster?
            && o.world.clusters == w.clusters[c := Joined(w.clusters[c], self, a.newId)]
            && Target(w.hosts[i], o.plan.value, a.created) == c
  {
    assert w.clusters[c := w.clusters[c]] == w.clusters;
  }

  /** Once synced, a Start changes no cluster any more. */
  lemma StartSyncs(w: World, i: NodeId, self: Identity, a: StartAnswers)
    requires i in w.hosts && Launches(w, self, a) && Verify(a.selfClient, a.keys).synced
    ensures var o := InitialClusterState(w, self, a);
            Start(w, i, self, a).world.clusters ==
            LaunchAndPublish(o.world, i, self, o.plan.value, a.launched.value, a).clusters
  {
  }

  /** A Start that found no members and has no data directory founds a cluster of one: itself, by name. */
  lemma StartFounds(w: World, i: NodeId, self: Identity, a: StartAnswers)
    requires i in w.hosts && w.hosts[i].data == None && ListFrom(w, a.listed, 0).prior == []
    requires a.configured && a.launched.Some?
    ensures Start(w, i, self, a).world.clusters == w.clusters[a.created := [Member(a.newId, self.name, self.url)]]
    ensures Start(w, i, self, a).world.usedIds == w.usedIds + {a.newId}
  {
    var o := InitialClusterState(w, self, a);
    assert o.plan.Some? && o.plan.value.NewCluster? && o.world == w;
    var own := [Member(a.newId, self.name, self.url)];
    assert Named(own, self) == own;
    assert w.clusters[a.created := own][a.created := own] == w.clusters[a.created := own];
  }

  // ---- the errors ----

  /** Each error of the kill step and its cause. */
  lemma KillErrorExactly(h: Host, unlinked: bool)
    ensures var e := KillOutcome(h, unlinked);
            && (e == Some(PidFileMissing) <==> h.pidFile.None?)
            && (e == Some(PidFileInvalid) <==> h.pidFile.Some? && Atoi(h.pidFile.value).None?)
            && (e == Some(KillError) <==> h.pidFile.Some? && Atoi(h.pidFile.value).Some? && !NamesSome(h))
            && (e == Some(PidFileRemoveError) <==> NamesSome(h) && !unlinked)
            && (e == None <==> NamesSome(h) && unlinked)
  {
    NamesExactly(h);
  }

  /** Each error of a Stop and its cause. */
  lemma StopErrorExactly(w: World, i: NodeId, self: Identity, a: StopAnswers)
    requires i in w.hosts
    ensures var e, h := Stop(w, i, self, a).error, w.hosts[i];
            && (e == Some(ConfigError) <==> !a.configured)
            && (e == Some(PidFileMissing) <==> a.configured && h.pidFile.None?)
            && (e == Some(PidFileInvalid) <==> a.configured && h.pidFile.Some? && Atoi(h.pidFile.value).None?)
            && (e == Some(KillError) <==>
                a.configured && h.pidFile.Some? && Atoi(h.pidFile.value).Some? && !NamesSome(h))
            && (e == Some(PidFileRemoveError) <==> a.configured && NamesSome(h) && !a.unlinked)
            && (e == None <==> a.configured && NamesSome(h) && a.unlinked)
  {
    KillErrorExactly(w.hosts[i], a.unlinked);
  }

  /** Each error of a Start and its cause; after a failed sync the pid file decides, with the new process alive. */
  lemma StartErrorExactly(w: World, i: NodeId, self: Identity, a: StartAnswers)
    requires i in w.hosts
    ensures var e := Start(w, i, self, a).error;
            && (e == Some(ConfigError) <==> !a.configured)
            && (e == Some(MemberAddError) <==> a.configured && !AddSettled(w, self, a))
            && (e == Some(LaunchError) <==> a.configured && AddSettled(w, self, a) && a.launched.None?)
            && (a.configured && AddSettled(w, self, a) && a.launched.Some? ==>
                  var h := WithEtcd(w.hosts[i], a.launched.value, Into(w, i, a));
                  && (e == Some(PidFileWriteError) <==> Syncs(a) && !a.pidWritten)
                  && (e == None <==> Syncs(a) && a.pidWritten)
                  && (e == Some(SyncError) <==> !Syncs(a) && NamesSome(h) && a.rollback.unlinked)
                  && (e == Some(PidFileMissing) <==> !Syncs(a) && h.pidFile.None?)
                  && (e == Some(PidFileInvalid) <==> !Syncs(a) && h.pidFile.Some? && Atoi(h.pidFile.value).None?)
                  && (e == Some(KillError) <==>
                      !Syncs(a) && h.pidFile.Some? && Atoi(h.pidFile.value).Some? && !NamesSome(h))
                  && (e == Some(PidFileRemoveError) <==> !Syncs(a) && NamesSome(h) && !a.rollback.unlinked))
  {
    SyncsExactly(a);
    LaunchesExactly(w, i, self, a);
    if Launches(w, self, a) {
      var w2, plan := LaunchedStart(w, i, self, a);
      KillErrorExactly(w2.hosts[i], a.rollback.unlinked);
    }
  }
}
