/** The split-brain detector: etcd-consistency-checker/app/app.go. The replies are inputs. */
module SplitBrainDetector {
  import opened Wrappers
  import opened Text

  const STATUS_OK := 200

  /** One member of a /v2/members reply. */
  datatype Node = Node(id: string, clientURLs: seq<string>)

  /** What a GET ends with; a body that does not decode is None. */
  datatype Reply<T> =
    | GetFailed(message: string)
    | Unreadable
    | Answer(status: int, decoded: Option<T>)

  /** What one cluster member answers in one round. */
  datatype Answers = Answers(self: Reply<string>, members: Reply<seq<Node>>)

  type Round = seq<Answers>

  /** Connection errors that count as a member being away. */
  predicate Away(message: string)
  {
    Contains(message, "no route to host") || Contains(message, "no such host") ||
    Contains(message, "connection refused")
  }

  /** leaderFromSelf; None is its error. */
  function LeaderFromSelf(r: Reply<string>): Option<string>
  {
    match r
    case GetFailed(message) => if Away(message) then Some("") else None
    case Unreadable => None
    case Answer(status, decoded) => if status == STATUS_OK then decoded else None
  }

  function FirstNode(nodes: seq<Node>, id: string): (r: Option<Node>)
    ensures r.None? <==> forall n :: n in nodes ==> n.id != id
    ensures r.Some? ==> r.value in nodes && r.value.id == id
  {
    if nodes == [] then None else if nodes[0].id == id then Some(nodes[0]) else FirstNode(nodes[1..], id)
  }

  /** The code takes the first client URL of the node it finds without looking; other nodes may have none. */
  predicate FoundHasURL(r: Reply<seq<Node>>, id: string)
  {
    r.Answer? && r.status == STATUS_OK && r.decoded.Some? && FirstNode(r.decoded.value, id).Some? ==>
      FirstNode(r.decoded.value, id).value.clientURLs != []
  }

  /** getNodeURL; None is its error. It looks the leader up even when its id is empty. */
  function GetNodeURL(r: Reply<seq<Node>>, leader: string): Option<string>
    requires FoundHasURL(r, leader)
  {
    match r
    case GetFailed(message) => if Away(message) then Some("") else None
    case Unreadable => None
    case Answer(status, decoded) =>
      if status == STATUS_OK && decoded.Some? && FirstNode(decoded.value, leader).Some? then
        Some(FirstNode(decoded.value, leader).value.clientURLs[0])
      else None
  }

  /** The message holds one of the texts by which a member that cannot be reached is recognised. */
  ghost predicate NamesAbsence(message: string)
  {
    exists a, b, text ::
      text in {"no route to host", "no such host", "connection refused"} && message == a + text + b
  }

  /** When a member counts as away, when it has a leader to report, and when asking it ends in an error. */
  lemma LeaderFromSelfExactly(r: Reply<string>)
    ensures LeaderFromSelf(r) ==
            match r
            case GetFailed(message) => if NamesAbsence(message) then Some("") else None
            case Unreadable => None
            case Answer(status, decoded) => if status != 200 then None else decoded
  {
    if r.GetFailed? { AwayExactly(r.message); }
  }

  /** The same for the leader's URL: that of the first listed member with the id, which may not be missing. */
  lemma GetNodeURLExactly(r: Reply<seq<Node>>, leader: string)
    requires FoundHasURL(r, leader)
    ensures r.GetFailed? ==> GetNodeURL(r, leader) == if NamesAbsence(r.message) then Some("") else None
    ensures r.Unreadable? || (r.Answer? && (r.status != 200 || r.decoded.None?)) ==> GetNodeURL(r, leader) == None
    ensures r.Answer? && r.status == 200 && r.decoded.Some? ==>
              var url, nodes := GetNodeURL(r, leader), r.decoded.value;
              || (url == None && forall n :: n in nodes ==> n.id != leader)
              || exists k :: 0 <= k < |nodes| && nodes[k].id == leader && nodes[k].clientURLs != [] &&
                             url == Some(nodes[k].clientURLs[0]) && forall j :: 0 <= j < k ==> nodes[j].id != leader
  {
    if r.GetFailed? {
      AwayExactly(r.message);
    } else if r.Answer? && r.status == 200 && r.decoded.Some? {
      FirstNodeExactly(r.decoded.value, leader);
    }
  }

  lemma AwayExactly(message: string)
    ensures Away(message) <==> NamesAbsence(message)
  {
    ContainsExactly(message, "no route to host");
    ContainsExactly(message, "no such host");
    ContainsExactly(message, "connection refused");
    if Away(message) {
      var text := if Contains(message, "no route to host") then "no route to host"
                  else if Contains(message, "no such host") then "no such host" else "connection refused";
      var a, b :| message == a + text + b;
      assert text in {"no route to host", "no such host", "connection refused"} && message == a + text + b;
    }
  }

  lemma {:induction false} FirstNodeExactly(nodes: seq<Node>, id: string)
    ensures var found := FirstNode(nodes, id);
            found.Some? ==> exists k :: 0 <= k < |nodes| && nodes[k] == found.value && nodes[k].id == id &&
                                        forall j :: 0 <= j < k ==> nodes[j].id != id
  {
    if nodes != [] && nodes[0].id != id && FirstNode(nodes, id).Some? {
      FirstNodeExactly(nodes[1..], id);
      var k :| 0 <= k < |nodes| - 1 && nodes[1..][k] == FirstNode(nodes, id).value && nodes[1..][k].id == id &&
               forall j :: 0 <= j < k ==> nodes[1..][j].id != id;
      assert forall j :: 0 < j <= k ==> nodes[j] == nodes[1..][j - 1];
      assert nodes[k + 1] == FirstNode(nodes, id).value;
    }
  }

  // ---- one round ----

  predicate Answerable(a: Answers)
  {
    LeaderFromSelf(a.self).Some? ==> FoundHasURL(a.members, LeaderFromSelf(a.self).value)
  }

  predicate WellFormed(round: Round) { forall a :: a in round ==> Answerable(a) }

  /** Asking the member ends in an error. */
  predicate Errs(a: Answers)
    requires Answerable(a)
  {
    LeaderFromSelf(a.self).None? || GetNodeURL(a.members, LeaderFromSelf(a.self).value).None?
  }

  predicate Reports(a: Answers, leader: string)
  {
    leader != "" && LeaderFromSelf(a.self) == Some(leader)
  }

  /** Two members name different leaders. */
  predicate TwoLeaders(round: Round)
  {
    exists j, k :: 0 <= j < |round| && 0 <= k < |round| && DifferentLeaders(round[j], round[k])
  }

  predicate DifferentLeaders(a: Answers, b: Answers)
  {
    && LeaderFromSelf(a.self).Some? && LeaderFromSelf(b.self).Some?
    && LeaderFromSelf(a.self).value != "" && LeaderFromSelf(b.self).value != ""
    && LeaderFromSelf(a.self).value != LeaderFromSelf(b.self).value
  }

  predicate NoneErrs(round: Round)
    requires WellFormed(round)
  {
    forall k :: 0 <= k < |round| ==> !Errs(round[k])
  }

  predicate Calm(round: Round)
    requires WellFormed(round)
  {
    NoneErrs(round) && !TwoLeaders(round)
  }

  lemma TwoElements<T>(s: set<T>)
    ensures |s| > 1 <==> exists x, y :: x in s && y in s && x != y
  {
    if |s| > 1 {
      var x :| x in s;
      assert |s - {x}| == |s| - 1;
      var y :| y in s - {x};
      assert x in s && y in s && x != y;
    }
    forall x, y | x in s && y in s && x != y ensures |s| > 1 {
      assert |s - {x}| == |s| - 1 && y in s - {x};
    }
  }

  /** Counting the reported ids finds out whether two members differ. */
  lemma ReportedIds(round: Round, ids: set<string>)
    requires forall id :: id in ids <==> exists k :: 0 <= k < |round| && Reports(round[k], id)
    ensures |ids| > 1 <==> TwoLeaders(round)
  {
    TwoElements(ids);
    forall j, k | 0 <= j < |round| && 0 <= k < |round| && DifferentLeaders(round[j], round[k]) ensures |ids| > 1 {
      var x, y := LeaderFromSelf(round[j].self).value, LeaderFromSelf(round[k].self).value;
      assert Reports(round[j], x) && Reports(round[k], y);
      assert x in ids && y in ids && x != y;
    }
    forall x, y | x in ids && y in ids && x != y ensures TwoLeaders(round) {
      var j :| 0 <= j < |round| && Reports(round[j], x);
      var k :| 0 <= k < |round| && Reports(round[k], y);
      assert DifferentLeaders(round[j], round[k]);
    }
  }

  /** How a round ends: at the first member whose calls err, or with the leaders' URLs by id. */
  datatype RoundEnd =
    | RoundFailed(member: nat)
    | Leaders(urls: map<string, string>)

  /** Of the first `n` members, the last one that reports the leader knows it under this URL. */
  predicate Located(round: Round, n: nat, leader: string, url: string)
    requires WellFormed(round) && n <= |round|
  {
    exists k :: 0 <= k < n && LocatedBy(round[k], leader, url) && forall j :: k < j < n ==> !Reports(round[j], leader)
  }

  predicate LocatedBy(a: Answers, leader: string, url: string)
    requires Answerable(a)
  {
    Reports(a, leader) && GetNodeURL(a.members, leader) == Some(url)
  }

  predicate NoneErrsBefore(round: Round, n: nat)
    requires WellFormed(round) && n <= |round|
  {
    forall k :: 0 <= k < n ==> !Errs(round[k])
  }

  /** The leaders' URLs after the first `n` members. */
  function UrlsOf(round: Round, n: nat): map<string, string>
    requires WellFormed(round) && n <= |round| && NoneErrsBefore(round, n)
  {
    if n == 0 then map[]
    else
      var a := round[n - 1];
      assert a in round && !Errs(a);
      var leader := LeaderFromSelf(a.self).value;
      if leader == "" then UrlsOf(round, n - 1)
      else UrlsOf(round, n - 1)[leader := GetNodeURL(a.members, leader).value]
  }

  lemma {:induction false} UrlsExactly(round: Round, n: nat)
    requires WellFormed(round) && n <= |round| && NoneErrsBefore(round, n)
    ensures forall id :: id in UrlsOf(round, n) <==> exists k :: 0 <= k < n && Reports(round[k], id)
    ensures forall id :: id in UrlsOf(round, n) ==> Located(round, n, id, UrlsOf(round, n)[id])
  {
    if n > 0 {
      UrlsExactly(round, n - 1);
      assert round[n - 1] in round && !Errs(round[n - 1]);
      LastLocated(round, n);
      forall id | id in UrlsOf(round, n) && !Reports(round[n - 1], id)
        ensures Located(round, n, id, UrlsOf(round, n)[id])
      {
        StillLocated(round, n, id, UrlsOf(round, n - 1)[id]);
      }
    }
  }

  lemma LastLocated(round: Round, n: nat)
    requires WellFormed(round) && 0 < n <= |round| && NoneErrsBefore(round, n)
    ensures forall id :: Reports(round[n - 1], id) ==>
              id in UrlsOf(round, n) && Located(round, n, id, UrlsOf(round, n)[id])
  {
    forall id | Reports(round[n - 1], id)
      ensures id in UrlsOf(round, n) && Located(round, n, id, UrlsOf(round, n)[id])
    {
      assert round[n - 1] in round;
      assert LocatedBy(round[n - 1], id, UrlsOf(round, n)[id]);
    }
  }

  lemma StillLocated(round: Round, n: nat, id: string, url: string)
    requires WellFormed(round) && 0 < n <= |round|
    requires Located(round, n - 1, id, url) && !Reports(round[n - 1], id)
    ensures Located(round, n, id, url)
  {
    var k :| 0 <= k < n - 1 && LocatedBy(round[k], id, url) && forall j :: k < j < n - 1 ==> !Reports(round[j], id);
    assert LocatedBy(round[k], id, url) && forall j :: k < j < n ==> !Reports(round[j], id);
  }

  method CheckRound(round: Round) returns (end: RoundEnd)
    requires WellFormed(round)
    ensures end.RoundFailed? ==>
              end.member < |round| && Errs(round[end.member]) && NoneErrsBefore(round, end.member)
    ensures end.Leaders? ==> NoneErrs(round)
    ensures end.Leaders? ==> forall id :: id in end.urls <==> exists k :: 0 <= k < |round| && Reports(round[k], id)
    ensures end.Leaders? ==> forall id :: id in end.urls ==> Located(round, |round|, id, end.urls[id])
    ensures end.Leaders? ==> (|end.urls| > 1 <==> TwoLeaders(round))
  {
    var urls: map<string, string> := map[];
    for i := 0 to |round|
      invariant NoneErrsBefore(round, i)
      invariant urls == UrlsOf(round, i)
    {
      assert round[i] in round;
      var leader := LeaderFromSelf(round[i].self);
      if leader.None? {
        return RoundFailed(i);
      }
      var url := GetNodeURL(round[i].members, leader.value);
      if url.None? {
        return RoundFailed(i);
      }
      if leader.value != "" {
        urls := urls[leader.value := url.value];
      }
    }
    UrlsExactly(round, |round|);
    ReportedIds(round, urls.Keys);
    return Leaders(urls);
  }

  // ---- the loop ----

  /** How Run ends on a trace of rounds; StillRunning when the trace is used up. */
  datatype Verdict =
    | NoMembers
    | MemberError(round: nat, member: nat)
    | MoreThanOneLeader(round: nat)
    | StillRunning

  predicate AllWellFormed(rounds: seq<Round>, members: nat)
  {
    forall r :: 0 <= r < |rounds| ==> |rounds[r]| == members && WellFormed(rounds[r])
  }

  /** The first round that is not calm decides: a member error before any alarm. */
  predicate IsVerdict(rounds: seq<Round>, members: nat, v: Verdict)
    requires AllWellFormed(rounds, members)
  {
    if members == 0 then v == NoMembers
    else match v
      case NoMembers => false
      case StillRunning => forall r :: 0 <= r < |rounds| ==> Calm(rounds[r])
      case MemberError(r, m) =>
        && r < |rounds| && (forall q :: 0 <= q < r ==> Calm(rounds[q]))
        && m < members && Errs(rounds[r][m]) && forall k :: 0 <= k < m ==> !Errs(rounds[r][k])
      case MoreThanOneLeader(r) =>
        && r < |rounds| && (forall q :: 0 <= q < r ==> Calm(rounds[q]))
        && NoneErrs(rounds[r]) && TwoLeaders(rounds[r])
  }

  /** A trace has one verdict, so each of its conditions is also sufficient. */
  lemma VerdictUnique(rounds: seq<Round>, members: nat, u: Verdict, v: Verdict)
    requires AllWellFormed(rounds, members) && IsVerdict(rounds, members, u) && IsVerdict(rounds, members, v)
    ensures u == v
  {
    if members > 0 {
      var ru := if u.MemberError? || u.MoreThanOneLeader? then u.round else |rounds|;
      var rv := if v.MemberError? || v.MoreThanOneLeader? then v.round else |rounds|;
      assert ru < |rounds| ==> !Calm(rounds[ru]);
      assert rv < |rounds| ==> !Calm(rounds[rv]);
    }
  }

  method Run(rounds: seq<Round>, members: nat) returns (v: Verdict)
    requires AllWellFormed(rounds, members)
    ensures IsVerdict(rounds, members, v)
  {
    if members == 0 {
      return NoMembers;
    }
    var r := 0;
    while r < |rounds|
      invariant 0 <= r <= |rounds|
      invariant forall q :: 0 <= q < r ==> Calm(rounds[q])
    {
      var end := CheckRound(rounds[r]);
      match end {
        case RoundFailed(m) => return MemberError(r, m);
        case Leaders(urls) =>
          if |urls| > 1 {
            return MoreThanOneLeader(r);
          }
      }
      r := r + 1;
    }
    return StillRunning;
  }

  /** A reachable member without a leader fails the round, since no member has the empty id. */
  lemma EmptyLeaderErrs(a: Answers)
    requires LeaderFromSelf(a.self) == Some("") && a.members.Answer?
    requires a.members.decoded.Some? ==> forall n :: n in a.members.decoded.value ==> n.id != ""
    ensures Answerable(a) && Errs(a)
  {
  }
}
