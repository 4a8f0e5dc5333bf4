/** What whole Starts and Stops of one node do, over all answers of the outside world. */
module Lifecycle {
  import opened Wrappers
  import opened Text
  import opened Fleet
  import opened Site
  import opened ClusterController
  import opened SyncController
  import opened Application

  // ---- time ----

  /** The limit monit puts on one start (jobs/etcd/monit). */
  const START_TIMEOUT := 55

  lemma StartTimeBound(w: World, i: NodeId, self: Identity, a: StartAnswers)
    requires i in w.hosts
    ensures Start(w, i, self, a).slept <= 26 < START_TIMEOUT
    ensures Start(w, i, self, a).error.None? ==> Start(w, i, self, a).slept <= 25
  {
    var l := ListFrom(w, a.listed, 0);
    if l.failures == MEMBER_LIST_TRIES {
      assert !MustAdd(l.prior, self);
    }
    assert InitialClusterState(w, self, a).slept <= 6;
    assert Verify(a.selfClient, a.keys).slept <= MAX_SYNC_CALLS;
  }

  /** The sleep of a Start that launches etcd, from its parts. */
  lemma StartSlept(w: World, i: NodeId, self: Identity, a: StartAnswers)
    requires i in w.hosts && a.configured && a.launched.Some? && a.pidWritten
    requires InitialClusterState(w, self, a).plan.Some?
    ensures Start(w, i, self, a).slept == InitialClusterState(w, self, a).slept + Verify(a.selfClient, a.keys).slept
    ensures Start(w, i, self, a).error.None? <==> Verify(a.selfClient, a.keys).synced
  {
  }

  lemma SlowList(w: World, slow: nat -> Option<ClusterId>, c: ClusterId)
    requires c in w.clusters && forall k :: slow(k) == if k < 4 then None else Some(c)
    ensures ListFrom(w, slow, 0) == ListResult(4, w.clusters[c], Some(c))
  {
    var first, last := slow(ListFrom(w, slow, 0).failures), slow(4);
  }

  /** Wherever a member is listed only at the fifth try and must be added, the cluster phase takes 6 seconds. */
  lemma SlowestClusterPhase(w: World, self: Identity, a: StartAnswers, c: ClusterId)
    requires c in w.clusters && MustAdd(w.clusters[c], self) && a.added == Some(c)
    requires forall k :: a.listed(k) == if k < 4 then None else Some(c)
    ensures InitialClusterState(w, self, a).plan.Some? && InitialClusterState(w, self, a).slept == 6
  {
    SlowList(w, a.listed, c);
  }

  /** Both bounds are reached: the slowest cluster phase, and a sync that fails or barely succeeds. */
  lemma StartTimeBoundReached(w: World, i: NodeId, self: Identity, a: StartAnswers, c: ClusterId)
    requires i in w.hosts && c in w.clusters && MustAdd(w.clusters[c], self) && a.added == Some(c)
    requires forall k :: a.listed(k) == if k < 4 then None else Some(c)
    requires a.configured && a.launched.Some? && a.pidWritten && a.selfClient
    ensures (forall k :: k < 20 ==> !a.keys(k)) ==> Start(w, i, self, a).slept == 26
    ensures (forall k :: a.keys(k) <==> k >= 19) ==>
              Start(w, i, self, a).slept == 25 && Start(w, i, self, a).error.None?
  {
    SlowestClusterPhase(w, self, a, c);
    StartSlept(w, i, self, a);
    if forall k :: k < 20 ==> !a.keys(k) {
      VerdictExact(true, a.keys, Verdict(false, 20));
    }
    if forall k :: a.keys(k) <==> k >= 19 {
      VerdictExact(true, a.keys, Verdict(true, 19));
    }
  }

  // ---- processes and the pid file ----

  /** What one operation does to its own host, apart from the cluster it launches into. */
  datatype Event =
    | Untouched                                                     // ended before touching the host
    | Launched(pid: Pid, cluster: ClusterId, pidWritten: bool)      // synced
    | RolledBack(pid: Pid, cluster: ClusterId, answers: StopAnswers)
    | Stopped(answers: StopAnswers)

  function After(h: Host, e: Event): Host
  {
    match e
    case Untouched => h
    case Launched(pid, c, written) =>
      if written then WithProcess(h, pid, c).(pidFile := Some(Decimal(pid))) else WithProcess(h, pid, c)
    case RolledBack(pid, c, a) => TakenDown(WithProcess(h, pid, c), a)
    case Stopped(a) => TakenDown(h, a)
  }

  predicate Succeeds(h: Host, e: Event)
  {
    match e
    case Untouched => false
    case Launched(_, _, written) => written
    case RolledBack(_, _, _) => false
    case Stopped(a) => KillOutcome(h, a.unlinked).None?
  }

  function StartEvent(w: World, i: NodeId, self: Identity, a: StartAnswers): Event
    requires i in w.hosts
  {
    var o := InitialClusterState(w, self, a);
    if !a.configured || o.plan.None? || a.launched.None? then Untouched
    else
      var c := Target(w.hosts[i], o.plan.value, a.created);
      if Verify(a.selfClient, a.keys).synced then Launched(a.launched.value, c, a.pidWritten)
      else RolledBack(a.launched.value, c, a.rollback)
  }

  function StopEvent(a: StopAnswers): Event
  {
    if a.configured then Stopped(a) else Untouched
  }

  lemma FinishActsAsEvent(w: World, h: Host, i: NodeId, self: Identity, plan: Plan, a: StartAnswers, c: ClusterId)
    requires i in w.hosts && a.launched.Some? && w.hosts[i] == WithProcess(h, a.launched.value, c)
    ensures var e := if Verify(a.selfClient, a.keys).synced then Launched(a.launched.value, c, a.pidWritten)
                     else RolledBack(a.launched.value, c, a.rollback);
            var r := Finish(w, i, self, plan, a.launched.value, a);
            && r.world.hosts == w.hosts[i := After(h, e)]
            && (r.error.None? <==> Succeeds(h, e))
  {
    assert w.hosts[i := w.hosts[i]] == w.hosts;
  }

  predicate Launches(w: World, self: Identity, a: StartAnswers)
  {
    a.configured && InitialClusterState(w, self, a).plan.Some? && a.launched.Some?
  }

  /** A Start that launches etcd ends as the part after the launch does. */
  lemma LaunchedStart(w: World, i: NodeId, self: Identity, a: StartAnswers) returns (w2: World, plan: Plan)
    requires i in w.hosts && Launches(w, self, a)
    ensures var c := Target(w.hosts[i], plan, a.created);
            && plan == InitialClusterState(w, self, a).plan.value
            && w2.hosts == w.hosts[i := WithProcess(w.hosts[i], a.launched.value, c)]
            && Start(w, i, self, a).world == Finish(w2, i, self, plan, a.launched.value, a).world
            && Start(w, i, self, a).error == Finish(w2, i, self, plan, a.launched.value, a).error
  {
    var o := InitialClusterState(w, self, a);
    plan := o.plan.value;
    w2 := LaunchAndPublish(o.world, i, self, plan, a.launched.value, a);
  }

  lemma UnlaunchedStart(w: World, i: NodeId, self: Identity, a: StartAnswers)
    requires i in w.hosts && !Launches(w, self, a)
    ensures Start(w, i, self, a).world.hosts == w.hosts && Start(w, i, self, a).error.Some?
    ensures StartEvent(w, i, self, a) == Untouched
  {
  }

  /** Whatever the other nodes and the clusters do, a Start acts on its host as its event says. */
  lemma StartActsAsEvent(w: World, i: NodeId, self: Identity, a: StartAnswers)
    requires i in w.hosts
    ensures Start(w, i, self, a).world.hosts == w.hosts[i := After(w.hosts[i], StartEvent(w, i, self, a))]
    ensures Start(w, i, self, a).error.None? <==> Succeeds(w.hosts[i], StartEvent(w, i, self, a))
  {
    if Launches(w, self, a) {
      var w2, plan := LaunchedStart(w, i, self, a);
      var c := Target(w.hosts[i], plan, a.created);
      FinishActsAsEvent(w2, w.hosts[i], i, self, plan, a, c);
      var h := After(w.hosts[i], StartEvent(w, i, self, a));
      assert w.hosts[i := WithProcess(w.hosts[i], a.launched.value, c)][i := h] == w.hosts[i := h];
    } else {
      UnlaunchedStart(w, i, self, a);
      assert w.hosts[i := w.hosts[i]] == w.hosts;
    }
  }

  lemma StopActsAsEvent(w: World, i: NodeId, self: Identity, a: StopAnswers)
    requires i in w.hosts
    ensures Stop(w, i, self, a).world.hosts == w.hosts[i := After(w.hosts[i], StopEvent(a))]
    ensures Stop(w, i, self, a).error.None? <==> Succeeds(w.hosts[i], StopEvent(a))
  {
  }

  /** Every process ever started is either killed or alive, counted with multiplicity. */
  predicate ProcessesConserved(h: Host)
  {
    multiset(h.started) == multiset(h.killed) + multiset(h.procs.Keys)
  }

  /** The operating system never hands out the pid of a live process. */
  predicate PidIsNew(h: Host, e: Event)
  {
    (e.Launched? || e.RolledBack?) ==> e.pid !in h.procs
  }

  function AfterAll(h: Host, es: seq<Event>): Host
  {
    if es == [] then h else After(AfterAll(h, es[..|es| - 1]), es[|es| - 1])
  }

  lemma LaunchKeepsProcesses(h: Host, pid: Pid, c: ClusterId)
    requires ProcessesConserved(h) && pid !in h.procs
    ensures ProcessesConserved(WithProcess(h, pid, c))
  {
    assert h.procs[pid := c].Keys == h.procs.Keys + {pid};
    assert multiset(h.procs.Keys + {pid}) == multiset(h.procs.Keys) + multiset{pid};
  }

  lemma KillKeepsProcesses(h: Host, a: StopAnswers)
    requires ProcessesConserved(h)
    ensures ProcessesConserved(TakenDown(h, a))
  {
    if PidToKill(h).Some? {
      var pid := PidToKill(h).value;
      assert (h.procs - {pid}).Keys == h.procs.Keys - {pid};
      assert multiset(h.procs.Keys) == multiset(h.procs.Keys - {pid}) + multiset{pid};
    }
  }

  /** No run of operations, successful or not, loses a process or kills one twice. */
  lemma {:induction false} RunKeepsProcesses(h: Host, es: seq<Event>)
    requires ProcessesConserved(h)
    requires forall k :: 0 <= k < |es| ==> PidIsNew(AfterAll(h, es[..k]), es[k])
    ensures ProcessesConserved(AfterAll(h, es))
  {
    if es != [] {
      var n := |es| - 1;
      forall k | 0 <= k < n ensures PidIsNew(AfterAll(h, es[..n][..k]), es[..n][k]) {
        assert es[..n][..k] == es[..k];
      }
      RunKeepsProcesses(h, es[..n]);
      var before, e := AfterAll(h, es[..n]), es[n];
      assert PidIsNew(before, e);
      match e {
        case Untouched =>
        case Launched(pid, c, _) => LaunchKeepsProcesses(before, pid, c);
        case RolledBack(pid, c, a) =>
          LaunchKeepsProcesses(before, pid, c);
          KillKeepsProcesses(WithProcess(before, pid, c), a);
        case Stopped(a) => KillKeepsProcesses(before, a);
      }
    }
  }

  /** One process is alive, its pid is in the pid file, and every earlier one was killed once, in order. */
  predicate UpWith(h: Host, pid: Pid)
  {
    h.procs.Keys == {pid} && h.pidFile == Some(Decimal(pid)) && h.started == h.killed + [pid]
  }

  predicate Down(h: Host)
  {
    h.procs == map[] && h.pidFile.None? && h.started == h.killed
  }

  lemma SuccessfulStart(h: Host, e: Event)
    requires Down(h) && e.Launched? && Succeeds(h, e)
    ensures UpWith(After(h, e), e.pid)
  {
  }

  lemma SuccessfulStop(h: Host, e: Event, pid: Pid)
    requires UpWith(h, pid) && e.Stopped? && Succeeds(h, e)
    ensures Down(After(h, e))
  {
    DecimalRoundTrip(pid);
    assert PidToKill(h) == Some(pid);
  }

  /** Successful operations only: a Start first, then Stop and Start in turn. */
  predicate Alternates(h: Host, es: seq<Event>)
  {
    forall k :: 0 <= k < |es| ==>
      (if k % 2 == 0 then es[k].Launched? else es[k].Stopped?) && Succeeds(AfterAll(h, es[..k]), es[k])
  }

  /** Over any alternating run of successful Starts and Stops, the live processes are exactly the one in
      the pid file, or none, and each process started was killed exactly once. */
  lemma {:induction false} AlternatingRun(h: Host, es: seq<Event>)
    requires Down(h) && Alternates(h, es)
    ensures if |es| % 2 == 0 then Down(AfterAll(h, es))
            else es[|es| - 1].Launched? && UpWith(AfterAll(h, es), es[|es| - 1].pid)
  {
    if es != [] {
      var n := |es| - 1;
      assert Alternates(h, es[..n]) by {
        assert forall k :: 0 <= k < n ==> es[..n][..k] == es[..k];
      }
      AlternatingRun(h, es[..n]);
      if n % 2 == 0 {
        SuccessfulStart(AfterAll(h, es[..n]), es[n]);
      } else {
        SuccessfulStop(AfterAll(h, es[..n]), es[n], es[n - 1].pid);
      }
    }
  }

  /** A Start that ends with an error writes no pid file: the file is the old one, or gone. */
  lemma FailedStartWritesNoPidFile(w: World, i: NodeId, self: Identity, a: StartAnswers)
    requires i in w.hosts
    requires Start(w, i, self, a).error.Some?
    ensures Start(w, i, self, a).world.hosts[i].pidFile in [None, w.hosts[i].pidFile]
  {
    StartActsAsEvent(w, i, self, a);
  }

  /** A Start that fails to sync kills the process named by the pid file it found, so the process it
      launched survives exactly when that file does not happen to name it. */
  lemma FailedSyncLeavesProcess(w: World, i: NodeId, self: Identity, a: StartAnswers)
    requires i in w.hosts && a.configured && a.launched.Some?
    requires InitialClusterState(w, self, a).plan.Some?
    requires !Verify(a.selfClient, a.keys).synced
    ensures a.launched.value in Start(w, i, self, a).world.hosts[i].procs
            <==> !(w.hosts[i].pidFile.Some? && Atoi(w.hosts[i].pidFile.value) == Some(a.launched.value))
  {
    StartActsAsEvent(w, i, self, a);
  }

  // ---- leaving the cluster ----

  /** The entries with another first peer URL. */
  function Others(ms: seq<Member>, url: string): seq<Member>
  {
    if ms == [] then []
    else (if ms[0].peerUrl == url then [] else [ms[0]]) + Others(ms[1..], url)
  }

  predicate RealIds(ms: seq<Member>) { forall m :: m in ms ==> m.id != "" }

  /** Only the own entry may carry the own name. */
  predicate NameIsOwn(ms: seq<Member>, self: Identity)
  {
    forall m :: m in ms && m.name == self.name ==> m.peerUrl == self.url
  }

  predicate NameListed(ms: seq<Member>, name: string) { exists m :: m in ms && m.name == name }

  lemma {:induction false} WithoutOwnId(ms: seq<Member>, id: string, url: string)
    requires forall m :: m in ms ==> (m.id == id <==> m.peerUrl == url)
    ensures WithoutId(ms, id) == Others(ms, url)
  {
    if ms != [] {
      assert forall m :: m in ms[1..] ==> m in ms;
      assert ms[0] in ms;
      WithoutOwnId(ms[1..], id, url);
    }
  }

  lemma UniqueElements(ms: seq<Member>, m: Member, n: Member)
    requires Unique(ms) && m in ms && n in ms && (m.id == n.id || m.peerUrl == n.peerUrl)
    ensures m == n
  {
  }

  /** removeSelfFromCluster by one answering cluster removes exactly the own entry once its name is
      published, and nothing before. */
  lemma RemoveSelfExact(w: World, c: ClusterId, self: Identity, a: StopAnswers)
    requires c in w.clusters && a.relisted == Some(c) && a.removed == Some(c)
    requires Unique(w.clusters[c]) && RealIds(w.clusters[c]) && NameIsOwn(w.clusters[c], self)
    ensures RemoveSelf(w, self, a).clusters ==
            if NameListed(w.clusters[c], self.name) then w.clusters[c := Others(w.clusters[c], self.url)]
            else w.clusters
  {
    var ms := w.clusters[c];
    if NameListed(ms, self.name) {
      var id := LastWithName(ms, self.name);
      var own :| own in ms && own.name == self.name && own.id == id;
      forall m | m in ms ensures m.id == id <==> m.peerUrl == self.url {
        if m.id == id || m.peerUrl == self.url { UniqueElements(ms, own, m); }
      }
      WithoutOwnId(ms, id, self.url);
    }
  }

  /** Teardown happens exactly when another name is listed, or the own name more than once. */
  lemma TeardownExact(ms: seq<Member>, name: string)
    ensures HadOtherNodes(Some(ms), name) <==> (exists m :: m in ms && m.name != name) || |ms| > 1
    ensures (forall m, n :: m in ms && n in ms && m.name == name && n.name == name ==> m == n) && Unique(ms) ==>
              (HadOtherNodes(Some(ms), name) <==> exists m :: m in ms && m.name != name)
  {
    if |ms| == 1 {
      assert ms[0] in ms;
    } else if |ms| > 1 {
      assert ms[0] in ms && ms[1] in ms;
    }
  }

  /** Whatever fails, a Stop served by one cluster never empties it. */
  lemma StopKeepsNonEmpty(w: World, i: NodeId, self: Identity, a: StopAnswers, c: ClusterId)
    requires i in w.hosts && c in w.clusters && w.clusters[c] != [] && Unique(w.clusters[c])
    requires forall served :: served in [a.decided, a.relisted, a.removed] ==> served in [None, Some(c)]
    ensures var after := Stop(w, i, self, a).world;
            && c in after.clusters && after.clusters[c] != [] && Unique(after.clusters[c])
            && i in after.hosts
  {
    var ms := w.clusters[c];
    var id := OwnId(Listed(w, a.relisted), self.name);
    WithoutIdUniqueIds(ms, id);
    WithoutIdUniqueUrls(ms, id);
    assert a.decided in [a.decided, a.relisted, a.removed];
    assert a.relisted in [a.decided, a.relisted, a.removed];
    assert a.removed in [a.decided, a.relisted, a.removed];
    if a.configured && HadOtherNodes(Listed(w, a.decided), self.name) && |ms| == 1 {
      assert ms[0].name != self.name;
      assert forall m :: m in ms ==> m == ms[0];
    }
  }

  /** Any run of Stops of any nodes, one after the other. */
  function StopAll(w: World, stops: seq<(NodeId, Identity, StopAnswers)>): World
    decreases |stops|
  {
    if stops == [] then w
    else if stops[0].0 !in w.hosts then StopAll(w, stops[1..])
    else StopAll(Stop(w, stops[0].0, stops[0].1, stops[0].2).world, stops[1..])
  }

  lemma {:induction false} SerialStopsKeepNonEmpty(
      w: World, stops: seq<(NodeId, Identity, StopAnswers)>, c: ClusterId)
    requires c in w.clusters && w.clusters[c] != [] && Unique(w.clusters[c])
    requires forall s :: s in stops ==>
               forall served :: served in [s.2.decided, s.2.relisted, s.2.removed] ==> served in [None, Some(c)]
    ensures c in StopAll(w, stops).clusters && StopAll(w, stops).clusters[c] != []
    decreases |stops|
  {
    if stops != [] {
      assert stops[0] in stops;
      assert forall s :: s in stops[1..] ==> s in stops;
      if stops[0].0 in w.hosts {
        StopKeepsNonEmpty(w, stops[0].0, stops[0].1, stops[0].2, c);
        SerialStopsKeepNonEmpty(Stop(w, stops[0].0, stops[0].1, stops[0].2).world, stops[1..], c);
      } else {
        SerialStopsKeepNonEmpty(w, stops[1..], c);
      }
    }
  }

  // ---- a Start that fails to sync ----

  /** One cluster answers every call of the Start, the sync fails, and the ids it gives out are new. */
  predicate FailsToSyncWith(w: World, c: ClusterId, self: Identity, a: StartAnswers)
  {
    && a.configured && a.launched.Some? && !Verify(a.selfClient, a.keys).synced
    && c in w.clusters && w.clusters[c] != []
    && ListFrom(w, a.listed, 0).cluster == Some(c)
    && a.added == a.rollback.relisted == a.rollback.removed == Some(c)
    && a.newId != "" && !HasId(w.clusters[c], a.newId)
  }

  predicate SoundMembers(ms: seq<Member>, self: Identity)
  {
    Unique(ms) && RealIds(ms) && NameIsOwn(ms, self) && self.name != ""
  }

  /** The membership when etcd is launched. */
  function Joined(ms: seq<Member>, self: Identity, id: string): seq<Member>
  {
    if HasUrl(ms, self.url) then ms else ms + [Member(id, "", self.url)]
  }

  lemma JoinedSound(ms: seq<Member>, self: Identity, id: string)
    requires SoundMembers(ms, self) && id != "" && !HasId(ms, id)
    ensures SoundMembers(Joined(ms, self, id), self)
    ensures HasUrl(Joined(ms, self, id), self.url)
    ensures Others(Joined(ms, self, id), self.url) == Others(ms, self.url)
  {
    if !HasUrl(ms, self.url) {
      var own := Member(id, "", self.url);
      assert (ms + [own])[|ms|] == own;
      OthersConcat(ms, [own], self.url);
      forall k | 0 <= k < |ms| ensures ms[k].id != id && ms[k].peerUrl != self.url {
        assert ms[k] in ms;
      }
    }
  }

  lemma {:induction false} OthersConcat(a: seq<Member>, b: seq<Member>, url: string)
    ensures Others(a + b, url) == Others(a, url) + Others(b, url)
  {
    if a == [] {
      assert a + b == b;
    } else {
      assert (a + b)[1..] == a[1..] + b;
      OthersConcat(a[1..], b, url);
    }
  }

  lemma {:induction false} OthersNamed(ms: seq<Member>, self: Identity)
    ensures Others(Named(ms, self), self.url) == Others(ms, self.url)
  {
    if ms != [] {
      assert Named(ms, self)[1..] == Named(ms[1..], self);
      OthersNamed(ms[1..], self);
    }
  }

  lemma NamedSound(ms: seq<Member>, self: Identity)
    requires SoundMembers(ms, self)
    ensures SoundMembers(Named(ms, self), self)
    ensures HasUrl(ms, self.url) ==> NameListed(Named(ms, self), self.name)
  {
    var ns := Named(ms, self);
    forall m | m in ns ensures m.id != "" && (m.name == self.name ==> m.peerUrl == self.url) {
      NamedEntry(ms, self, m);
    }
    if HasUrl(ms, self.url) {
      var m :| m in ms && m.peerUrl == self.url;
      var k :| 0 <= k < |ms| && ms[k] == m;
      assert ns[k] in ns;
    }
  }

  /** The member lists when the rollback of a failed Start begins. */
  function BeforeRollBack(prior: seq<Member>, self: Identity, a: StartAnswers): seq<Member>
  {
    var joined := Joined(prior, self, a.newId);
    if a.published then Named(joined, self) else joined
  }

  lemma FailedStartReachesRollBack(w: World, i: NodeId, self: Identity, a: StartAnswers, c: ClusterId)
    returns (w2: World, plan: Plan)
    requires i in w.hosts && FailsToSyncWith(w, c, self, a) && w.hosts[i].data in [None, Some(c)]
    ensures i in w2.hosts && plan.ExistingCluster?
    ensures w2.clusters == w.clusters[c := BeforeRollBack(w.clusters[c], self, a)]
    ensures Start(w, i, self, a).world == RollBack(w2, i, self, plan, a.rollback)
  {
    var o := InitialClusterState(w, self, a);
    assert o.plan.Some? && o.plan.value.ExistingCluster? && o.plan.value.cluster == c;
    assert o.world.clusters == w.clusters[c := Joined(w.clusters[c], self, a.newId)];
    plan := o.plan.value;
    w2 := LaunchAndPublish(o.world, i, self, plan, a.launched.value, a);
  }

  /** Failed-start rollback. Once the own name is on the entry, the Start leaves the prior membership
      minus itself; until then its entry stays behind, unnamed. */
  lemma FailedStartRollsBack(w: World, i: NodeId, self: Identity, a: StartAnswers, c: ClusterId)
    requires i in w.hosts && FailsToSyncWith(w, c, self, a) && SoundMembers(w.clusters[c], self)
    requires w.hosts[i].data in [None, Some(c)]
    ensures var prior := w.clusters[c];
            Start(w, i, self, a).world.clusters ==
            if a.published || NameListed(prior, self.name) then w.clusters[c := Others(prior, self.url)]
            else w.clusters[c := Joined(prior, self, a.newId)]
  {
    var w2, plan := FailedStartReachesRollBack(w, i, self, a, c);
    RollBackOfStart(w, w2, i, self, plan, a, c);
  }

  lemma RollBackOfStart(w: World, w2: World, i: NodeId, self: Identity, plan: Plan, a: StartAnswers, c: ClusterId)
    requires c in w.clusters && SoundMembers(w.clusters[c], self) && a.newId != "" && !HasId(w.clusters[c], a.newId)
    requires i in w2.hosts && plan.ExistingCluster? && a.rollback.relisted == a.rollback.removed == Some(c)
    requires w2.clusters == w.clusters[c := BeforeRollBack(w.clusters[c], self, a)]
    ensures RollBack(w2, i, self, plan, a.rollback).clusters ==
            if a.published || NameListed(w.clusters[c], self.name) then w.clusters[c := Others(w.clusters[c], self.url)]
            else w.clusters[c := Joined(w.clusters[c], self, a.newId)]
  {
    BeforeRollBackSound(w.clusters[c], self, a);
    RollBackExact(w2, i, self, plan, a.rollback, c);
  }

  lemma BeforeRollBackSound(prior: seq<Member>, self: Identity, a: StartAnswers)
    requires SoundMembers(prior, self) && a.newId != "" && !HasId(prior, a.newId)
    ensures var ms := BeforeRollBack(prior, self, a);
            && SoundMembers(ms, self)
            && Others(ms, self.url) == Others(prior, self.url)
            && (NameListed(ms, self.name) <==> a.published || NameListed(prior, self.name))
  {
    var joined := Joined(prior, self, a.newId);
    JoinedSound(prior, self, a.newId);
    NamedSound(joined, self);
    OthersNamed(joined, self);
    JoinedNames(prior, self, a.newId);
  }

  lemma RollBackExact(w: World, i: NodeId, self: Identity, plan: Plan, a: StopAnswers, c: ClusterId)
    requires i in w.hosts && plan.ExistingCluster? && c in w.clusters && SoundMembers(w.clusters[c], self)
    requires a.relisted == a.removed == Some(c)
    ensures RollBack(w, i, self, plan, a).clusters ==
            if NameListed(w.clusters[c], self.name) then w.clusters[c := Others(w.clusters[c], self.url)]
            else w.clusters
  {
    RemoveSelfExact(w, c, self, a);
  }

  lemma JoinedNames(prior: seq<Member>, self: Identity, id: string)
    requires self.name != ""
    ensures NameListed(Joined(prior, self, id), self.name) <==> NameListed(prior, self.name)
  {
    var joined := Joined(prior, self, id);
    if !HasUrl(prior, self.url) {
      assert forall m :: m in joined <==> m in prior || m == Member(id, "", self.url);
    }
  }

  /** The world after a run of Starts of one node. */
  function StartAll(w: World, i: NodeId, self: Identity, starts: seq<StartAnswers>): World
    decreases |starts|
  {
    if starts == [] || i !in w.hosts then w
    else StartAll(Start(w, i, self, starts[0]).world, i, self, starts[1..])
  }

  /** Cluster `c` answers the list within the tries; of the later calls some may fail. */
  predicate ServedBy(w: World, c: ClusterId, a: StartAnswers)
  {
    && c in w.clusters && w.clusters[c] != [] && ListFrom(w, a.listed, 0).cluster == Some(c)
    && a.added in [None, Some(c)] && a.rollback.relisted in [None, Some(c)] && a.rollback.removed in [None, Some(c)]
    && a.newId != "" && !HasId(w.clusters[c], a.newId)
  }

  predicate AddAnswered(a: StartAnswers) { a.configured && a.added.Some? }

  /** The clusters when a Start, however it goes on, has decided on its plan. */
  lemma PlannedClusters(w: World, self: Identity, a: StartAnswers, c: ClusterId)
    requires ServedBy(w, c, a)
    ensures var o := InitialClusterState(w, self, a);
            && o.world.clusters == (if a.added.Some? then w.clusters[c := Joined(w.clusters[c], self, a.newId)]
                                    else w.clusters)
            && (o.plan.Some? ==> o.plan.value.ExistingCluster?)
  {
    assert w.clusters[c := w.clusters[c]] == w.clusters;
  }

  /** A Start whose etcd publishes nothing leaves the clusters as planned if the own name is not listed there,
      whether it fails at the launch, at the sync or at the pid file, or succeeds. */
  lemma UnpublishedRest(w: World, i: NodeId, self: Identity, a: StartAnswers, c: ClusterId)
    requires i in w.hosts && a.configured && ServedBy(w, c, a) && !a.published
    requires var o := InitialClusterState(w, self, a);
             c in o.world.clusters && !NameListed(o.world.clusters[c], self.name)
    ensures Start(w, i, self, a).world.clusters == InitialClusterState(w, self, a).world.clusters
  {
    var o := InitialClusterState(w, self, a);
    PlannedClusters(w, self, a, c);
    if o.plan.Some? && a.launched.Some? {
      var w2 := LaunchAndPublish(o.world, i, self, o.plan.value, a.launched.value, a);
      assert w2.clusters == o.world.clusters;
      NothingToRemove(w2, self, a.rollback, c);
    }
  }

  lemma NothingToRemove(w: World, self: Identity, a: StopAnswers, c: ClusterId)
    requires c in w.clusters && !NameListed(w.clusters[c], self.name) && a.relisted in [None, Some(c)]
    ensures RemoveSelf(w, self, a) == w
  {
    assert OwnId(Listed(w, a.relisted), self.name) == "";
  }

  /** A Start that is never published adds at most its own unnamed entry, once, whatever its outcome. */
  lemma UnpublishedStart(w: World, i: NodeId, self: Identity, a: StartAnswers, c: ClusterId)
    requires i in w.hosts && ServedBy(w, c, a) && !a.published
    requires SoundMembers(w.clusters[c], self) && !NameListed(w.clusters[c], self.name)
    ensures var w1 := Start(w, i, self, a).world;
            var joined := Joined(w.clusters[c], self, a.newId);
            && w1.clusters == (if AddAnswered(a) then w.clusters[c := joined] else w.clusters)
            && i in w1.hosts
            && SoundMembers(joined, self) && !NameListed(joined, self.name) && HasUrl(joined, self.url)
  {
    JoinedSound(w.clusters[c], self, a.newId);
    JoinedNames(w.clusters[c], self, a.newId);
    StartActsAsEvent(w, i, self, a);
    if a.configured {
      PlannedClusters(w, self, a, c);
      UnpublishedRest(w, i, self, a, c);
    }
  }

  /** Every Start of the run is served by `c` and publishes nothing. */
  predicate NeverPublishes(w: World, i: NodeId, c: ClusterId, self: Identity, starts: seq<StartAnswers>)
    decreases |starts|
  {
    starts == [] ||
    (&& ServedBy(w, c, starts[0]) && !starts[0].published && i in w.hosts
     && NeverPublishes(Start(w, i, self, starts[0]).world, i, c, self, starts[1..]))
  }

  function FirstAdd(starts: seq<StartAnswers>): Option<StartAnswers>
  {
    if starts == [] then None else if AddAnswered(starts[0]) then Some(starts[0]) else FirstAdd(starts[1..])
  }

  /** If the name is never published, then of any Starts, failed anywhere or not, the first whose add is answered
      leaves an unnamed entry, and all the others change nothing. */
  lemma {:induction false} UnpublishedEntryStays(
      w: World, i: NodeId, self: Identity, starts: seq<StartAnswers>, c: ClusterId)
    requires i in w.hosts && c in w.clusters
    requires SoundMembers(w.clusters[c], self) && !NameListed(w.clusters[c], self.name)
    requires NeverPublishes(w, i, c, self, starts)
    ensures StartAll(w, i, self, starts).clusters ==
            if FirstAdd(starts).None? then w.clusters
            else w.clusters[c := Joined(w.clusters[c], self, FirstAdd(starts).value.newId)]
    decreases |starts|
  {
    if starts != [] {
      var w1 := Start(w, i, self, starts[0]).world;
      UnpublishedStart(w, i, self, starts[0], c);
      UnpublishedEntryStays(w1, i, self, starts[1..], c);
      if AddAnswered(starts[0]) {
        var joined := Joined(w.clusters[c], self, starts[0].newId);
        assert w1.clusters[c := joined] == w1.clusters;
      }
    }
  }
}
