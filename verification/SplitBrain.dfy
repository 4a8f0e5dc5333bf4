/** The detector watching the clusters of Protocol. */
module SplitBrain {
  import opened Wrappers
  import opened Fleet
  import opened Protocol
  import opened Membership
  import opened SplitBrainDetector
  import opened SingleCluster
  import opened ClusterController

  /** What etcd adds to the picture: each cluster's leader, and the client URLs of an entry, none before its etcd
      has started. */
  datatype View = View(leaderOf: map<ClusterId, string>, clientURLs: Member -> seq<string>)

  /** The cluster has elected one of its started members. */
  ghost predicate Elected(w: World, v: View, c: ClusterId)
  {
    && c in w.clusters && c in v.leaderOf
    && exists m :: Protocol.Entry(w, c, m) && m.id == v.leaderOf[c] && v.clientURLs(m) != []
  }

  function Nodes(ms: seq<Member>, v: View): (r: seq<Node>)
    ensures |r| == |ms| && forall k :: 0 <= k < |ms| ==> r[k] == Node(ms[k].id, v.clientURLs(ms[k]))
  {
    seq(|ms|, k requires 0 <= k < |ms| => Node(ms[k].id, v.clientURLs(ms[k])))
  }

  /** What a member answers: nothing if it is away, else the leader and members of its cluster. */
  function AnswerOf(w: World, v: View, at: Option<ClusterId>): Answers
    requires at.Some? ==> at.value in w.clusters && at.value in v.leaderOf
  {
    match at
    case None => Answers(GetFailed("connection refused"), GetFailed("connection refused"))
    case Some(c) => Answers(Answer(STATUS_OK, Some(v.leaderOf[c])), Answer(STATUS_OK, Some(Nodes(w.clusters[c], v))))
  }

  /** The round seen when the k-th configured member is on node `members[k]`, whose etcd answers from the cluster
      `at[k]` it runs in, or does not answer. */
  ghost predicate Sees(w: World, v: View, members: seq<NodeId>, at: seq<Option<ClusterId>>, round: Round)
  {
    && |round| == |at| == |members|
    && forall k :: 0 <= k < |at| ==>
         && (at[k].Some? ==>
               members[k] in w.hosts && RunsIn(w.hosts[members[k]], at[k].value) && Elected(w, v, at[k].value))
         && round[k] == AnswerOf(w, v, at[k])
  }

  /** Two members that answer are in different clusters. */
  predicate Split(at: seq<Option<ClusterId>>)
  {
    exists j, k :: 0 <= j < |at| && 0 <= k < |at| && at[j].Some? && at[k].Some? && at[j] != at[k]
  }

  // ---- one round ----

  lemma LeaderIsFound(w: World, v: View, c: ClusterId, m: Member)
    requires c in w.clusters && UniqueIds(w.clusters[c]) && m in w.clusters[c]
    ensures FirstNode(Nodes(w.clusters[c], v), m.id) == Some(Node(m.id, v.clientURLs(m)))
  {
    var ms := w.clusters[c];
    var nodes := Nodes(ms, v);
    var k :| 0 <= k < |ms| && ms[k] == m;
    assert nodes[k] in nodes;
    var n := FirstNode(nodes, m.id).value;
    var j :| 0 <= j < |nodes| && nodes[j] == n;
    assert ms[j].id == ms[k].id;
  }

  lemma AnswerIsGood(d: Deployment, w: World, v: View, at: Option<ClusterId>)
    requires EntriesOk(d, w) && (at.Some? ==> Elected(w, v, at.value))
    ensures var a := AnswerOf(w, v, at);
            && Answerable(a) && !Errs(a)
            && LeaderFromSelf(a.self) == Some(if at.Some? then v.leaderOf[at.value] else "")
            && (at.Some? ==> v.leaderOf[at.value] != "")
  {
    assert Away("connection refused");
    if at.Some? {
      var c := at.value;
      var m :| Protocol.Entry(w, c, m) && m.id == v.leaderOf[c] && v.clientURLs(m) != [];
      LeaderIsFound(w, v, c, m);
    }
  }

  lemma LeadersDiffer(d: Deployment, w: World, v: View, c: ClusterId, e: ClusterId)
    requires EntriesOk(d, w) && c != e && Elected(w, v, c) && Elected(w, v, e)
    ensures v.leaderOf[c] != v.leaderOf[e]
  {
    var m :| Protocol.Entry(w, c, m) && m.id == v.leaderOf[c];
    var n :| Protocol.Entry(w, e, n) && n.id == v.leaderOf[e];
  }

  /** Every member answers as expected: its cluster's leader, or none. */
  ghost predicate AnswersAre(v: View, at: seq<Option<ClusterId>>, round: Round)
  {
    && |round| == |at|
    && forall k :: 0 <= k < |at| ==> AnswerIs(v, at[k], round[k])
  }

  ghost predicate AnswerIs(v: View, at: Option<ClusterId>, a: Answers)
  {
    && Answerable(a) && !Errs(a)
    && (at.None? ==> LeaderFromSelf(a.self) == Some(""))
    && (at.Some? ==> at.value in v.leaderOf && v.leaderOf[at.value] != "" &&
                     LeaderFromSelf(a.self) == Some(v.leaderOf[at.value]))
  }

  lemma SeenAnswers(d: Deployment, w: World, v: View, members: seq<NodeId>, at: seq<Option<ClusterId>>, round: Round)
    requires EntriesOk(d, w) && Sees(w, v, members, at, round)
    ensures AnswersAre(v, at, round)
  {
    forall k | 0 <= k < |at| ensures AnswerIs(v, at[k], round[k]) {
      AnswerIsGood(d, w, v, at[k]);
    }
  }

  lemma GoodAnswersGoodRound(v: View, at: seq<Option<ClusterId>>, round: Round)
    requires AnswersAre(v, at, round)
    ensures WellFormed(round) && NoneErrs(round)
  {
    forall a | a in round ensures Answerable(a) {
      var k :| 0 <= k < |round| && round[k] == a;
      assert AnswerIs(v, at[k], round[k]);
    }
    forall k | 0 <= k < |round| ensures !Errs(round[k]) {
      assert AnswerIs(v, at[k], round[k]);
    }
  }

  lemma TwoLeadersSplit(v: View, at: seq<Option<ClusterId>>, round: Round)
    requires AnswersAre(v, at, round) && TwoLeaders(round)
    ensures Split(at)
  {
    var j, k :| 0 <= j < |round| && 0 <= k < |round| && DifferentLeaders(round[j], round[k]);
    assert AnswerIs(v, at[j], round[j]) && AnswerIs(v, at[k], round[k]);
  }

  lemma SplitTwoLeaders(d: Deployment, w: World, v: View, members: seq<NodeId>, at: seq<Option<ClusterId>>,
                        round: Round)
    requires EntriesOk(d, w) && Sees(w, v, members, at, round) && AnswersAre(v, at, round) && Split(at)
    ensures TwoLeaders(round)
  {
    var j, k :| 0 <= j < |at| && 0 <= k < |at| && at[j].Some? && at[k].Some? && at[j] != at[k];
    LeadersDiffer(d, w, v, at[j].value, at[k].value);
    assert AnswerIs(v, at[j], round[j]) && AnswerIs(v, at[k], round[k]);
    assert DifferentLeaders(round[j], round[k]);
  }

  /** In every state the protocol can reach a round does not fail, and alarms exactly when the members that answer
      span two clusters: leader ids tell clusters apart. */
  lemma AlarmsExactlyOnSplit(
      d: Deployment, w: World, v: View, members: seq<NodeId>, at: seq<Option<ClusterId>>, round: Round)
    requires EntriesOk(d, w) && Sees(w, v, members, at, round)
    ensures WellFormed(round) && NoneErrs(round)
    ensures TwoLeaders(round) <==> Split(at)
  {
    SeenAnswers(d, w, v, members, at, round);
    GoodAnswersGoodRound(v, at, round);
    if TwoLeaders(round) { TwoLeadersSplit(v, at, round); }
    if Split(at) { SplitTwoLeaders(d, w, v, members, at, round); }
  }

  // ---- a whole watch ----

  /** One round of the detector: the run since the round before, the state it then sees, and what it sees. */
  datatype Look = Look(steps: seq<Step>, state: State, view: View, at: seq<Option<ClusterId>>, round: Round)

  /** Starts, Stops and whatever else go on between the rounds. */
  ghost predicate Watched(d: Deployment, s: State, members: seq<NodeId>, looks: seq<Look>)
    requires Shape(d, s)
    decreases |looks|
  {
    looks == [] ||
    (&& Protocol.Run(d, s, looks[0].steps, looks[0].state) && Shape(d, looks[0].state)
     && Sees(looks[0].state.world, looks[0].view, members, looks[0].at, looks[0].round)
     && Watched(d, looks[0].state, members, looks[1..]))
  }

  function Rounds(looks: seq<Look>): (r: seq<Round>)
    ensures |r| == |looks| && forall k :: 0 <= k < |looks| ==> r[k] == looks[k].round
  {
    seq(|looks|, k requires 0 <= k < |looks| => looks[k].round)
  }

  ghost predicate RoundsOk(members: seq<NodeId>, looks: seq<Look>)
  {
    forall k :: 0 <= k < |looks| ==>
      && |looks[k].round| == |members| && WellFormed(looks[k].round) && NoneErrs(looks[k].round)
      && (TwoLeaders(looks[k].round) <==> Split(looks[k].at))
  }

  lemma {:induction false} WatchedRounds(d: Deployment, s: State, members: seq<NodeId>, looks: seq<Look>)
    requires Inv(d, s) && Watched(d, s, members, looks)
    ensures RoundsOk(members, looks)
    decreases |looks|
  {
    if looks != [] {
      var l := looks[0];
      RunKeepsInv(d, s, l.steps, l.state);
      AlarmsExactlyOnSplit(d, l.state.world, l.view, members, l.at, l.round);
      WatchedRounds(d, l.state, members, looks[1..]);
      forall k | 0 < k < |looks| ensures looks[k] == looks[1..][k - 1] {}
    }
  }

  /** The alarm at the first split that is seen. */
  function FirstAlarm(looks: seq<Look>, from: nat): Verdict
    requires from <= |looks|
    decreases |looks| - from
  {
    if from == |looks| then Verdict.StillRunning
    else if Split(looks[from].at) then MoreThanOneLeader(from)
    else FirstAlarm(looks, from + 1)
  }

  lemma {:induction false} FirstAlarmIsVerdict(members: seq<NodeId>, looks: seq<Look>, from: nat)
    requires RoundsOk(members, looks) && from <= |looks| && |members| > 0
    requires forall k :: 0 <= k < from ==> !Split(looks[k].at)
    ensures AllWellFormed(Rounds(looks), |members|)
    ensures IsVerdict(Rounds(looks), |members|, FirstAlarm(looks, from))
    decreases |looks| - from
  {
    if from < |looks| && !Split(looks[from].at) {
      FirstAlarmIsVerdict(members, looks, from + 1);
    }
  }

  /** Over any interleaving of Starts and Stops the detector runs on until the first round in which the members
      that answer span two clusters, and then alarms. */
  lemma DetectsFirstSplit(d: Deployment, s: State, members: seq<NodeId>, looks: seq<Look>)
    requires Inv(d, s) && Watched(d, s, members, looks) && |members| > 0
    ensures AllWellFormed(Rounds(looks), |members|)
    ensures IsVerdict(Rounds(looks), |members|, FirstAlarm(looks, 0))
  {
    WatchedRounds(d, s, members, looks);
    FirstAlarmIsVerdict(members, looks, 0);
  }

  // ---- with the protocol's own results ----

  ghost predicate AllHarmless(d: Deployment, s: State, looks: seq<Look>, a: NodeId)
    requires Shape(d, s)
    decreases |looks|
  {
    looks == [] ||
    (&& Each(d, s, looks[0].steps, HarmlessFor(a)) && Shape(d, looks[0].state)
     && AllHarmless(d, looks[0].state, looks[1..], a))
  }

  lemma AnchoredIsNotSplit(d: Deployment, s: State, a: NodeId, c: ClusterId, v: View, members: seq<NodeId>,
                           at: seq<Option<ClusterId>>, round: Round)
    requires Anchored(d, s, a, c) && Sees(s.world, v, members, at, round)
    ensures !Split(at)
  {
    forall k | 0 <= k < |at| && at[k].Some? ensures at[k] == Some(c) {
      assert HostIn(s.world.hosts[members[k]], c);
    }
  }

  lemma {:induction false} AnchoredNeverSplit(
      d: Deployment, s: State, members: seq<NodeId>, looks: seq<Look>, a: NodeId, c: ClusterId)
    requires Anchored(d, s, a, c) && Watched(d, s, members, looks) && AllHarmless(d, s, looks, a)
    ensures forall k :: 0 <= k < |looks| ==> !Split(looks[k].at)
    decreases |looks|
  {
    if looks != [] {
      var l := looks[0];
      AnchoredRun(d, s, l.steps, l.state, a, c);
      AnchoredIsNotSplit(d, l.state, a, c, l.view, members, l.at, l.round);
      AnchoredNeverSplit(d, l.state, members, looks[1..], a, c);
      forall k | 0 < k < |looks| ensures looks[k] == looks[1..][k - 1] {}
    }
  }

  lemma {:induction false} NoSplitNoAlarm(looks: seq<Look>, from: nat)
    requires from <= |looks| && forall k :: 0 <= k < |looks| ==> !Split(looks[k].at)
    ensures FirstAlarm(looks, from) == Verdict.StillRunning
    decreases |looks| - from
  {
    if from < |looks| { NoSplitNoAlarm(looks, from + 1); }
  }

  /** While one member runs throughout and lists succeed within five tries, the detector never alarms. */
  lemma AnchoredNeverAlarms(
      d: Deployment, s: State, members: seq<NodeId>, looks: seq<Look>, a: NodeId, c: ClusterId)
    requires Anchored(d, s, a, c) && Watched(d, s, members, looks) && AllHarmless(d, s, looks, a) && |members| > 0
    ensures AllWellFormed(Rounds(looks), |members|)
    ensures IsVerdict(Rounds(looks), |members|, Verdict.StillRunning)
  {
    DetectsFirstSplit(d, s, members, looks);
    AnchoredNeverSplit(d, s, members, looks, a, c);
    NoSplitNoAlarm(looks, 0);
  }

  lemma HostsAfterLaunch(d: Deployment, s: State, i: NodeId, pid: Pid, created: ClusterId, id: string)
    requires Shape(d, s) && i in d && s.phase[i].Launching? && s.phase[i].plan.NewCluster?
    requires Enabled(d, s, Launch(i, Some(pid), created, id)) && s.world.hosts[i].data.None?
    ensures Next(d, s, Launch(i, Some(pid), created, id)).world.hosts ==
            s.world.hosts[i := WithProcess(s.world.hosts[i], pid, created)]
  {
  }

  lemma HostsAfterSplit(d: Deployment, s: State, i: NodeId, pid: Pid, created: ClusterId, id: string, t: State)
    requires Shape(d, s) && i in d && s.phase[i] == Phase.Listing(4) && s.world.hosts[i].data.None?
    requires Protocol.Run(d, s, SplitSteps(i, pid, created, id), t)
    ensures t.world.hosts == s.world.hosts[i := WithProcess(s.world.hosts[i], pid, created)]
  {
    var s1 := To(s, i, s.world, Launching(PlanFor([], None, d[i])));
    LastListFails(d, s, i, s1);
    TwoStepResult(d, s, List(i, None), s1, Launch(i, Some(pid), created, id), t);
    HostsAfterLaunch(d, s1, i, pid, created, id);
  }

  lemma SplitIsSeen(w: World, v: View, members: seq<NodeId>, at: seq<Option<ClusterId>>, round: Round,
                    j: nat, c: ClusterId, k: nat, e: ClusterId)
    requires Sees(w, v, members, at, round) && c != e
    requires j < |members| && at[j].Some? && HostIn(w.hosts[members[j]], c)
    requires k < |members| && at[k].Some? && HostIn(w.hosts[members[k]], e)
    ensures Split(at)
  {
    assert at[j] == Some(c) && at[k] == Some(e);
  }

  lemma HostsApart(d: Deployment, s: State, a: NodeId, c: ClusterId, i: NodeId, pid: Pid, created: ClusterId)
    requires Anchored(d, s, a, c) && i in d && s.world.hosts[i].procs == map[] && s.world.hosts[i].data.None?
    ensures var hosts := s.world.hosts[i := WithProcess(s.world.hosts[i], pid, created)];
            HostIn(hosts[a], c) && HostIn(hosts[i], created)
  {
    assert HostIn(s.world.hosts[a], c);
    var p :| p in s.world.hosts[a].procs && s.world.hosts[a].procs[p] == c;
  }

  /** After five failed lists of a node without data and processes, the first round in which it and the running
      member answer alarms. */
  lemma FiveFailuresAlarm(
      d: Deployment, s: State, a: NodeId, c: ClusterId, i: NodeId, pid: Pid, created: ClusterId, id: string, t: State,
      v: View, members: seq<NodeId>, at: seq<Option<ClusterId>>, round: Round, j: nat, k: nat)
    requires Anchored(d, s, a, c) && i in d && s.phase[i] == Phase.Listing(4)
    requires created !in s.world.clusters && s.world.hosts[i].procs == map[] && s.world.hosts[i].data.None?
    requires Protocol.Run(d, s, SplitSteps(i, pid, created, id), t) && Sees(t.world, v, members, at, round)
    requires j < |members| && members[j] == a && at[j].Some? && k < |members| && members[k] == i && at[k].Some?
    ensures WellFormed(round) && IsVerdict([round], |members|, MoreThanOneLeader(0))
  {
    HostsAfterSplit(d, s, i, pid, created, id, t);
    HostsApart(d, s, a, c, i, pid, created);
    SplitIsSeen(t.world, v, members, at, round, j, c, k, created);
    RunKeepsInv(d, s, SplitSteps(i, pid, created, id), t);
    AlarmsExactlyOnSplit(d, t.world, v, members, at, round);
  }
}
