/** The etcd proxy's search for the leader: etcd-proxy/leaderfinder/finder.go and manager.go. */
module LeaderFinder {
  import opened Wrappers

  datatype Member = Member(clientURLs: seq<string>, id: string)

  /** A request that failed, or whose body could not be decoded, or the decoded body. */
  datatype Reply<T> = Failed(message: string) | Got(value: T)

  datatype FindError =
    | NoAddressProvided
    | RequestFailed(message: string)
    | MembersNotFound
    | NoClientURLsForLeader
    | LeaderNotFound
    | UnparsableURL(url: string)

  datatype FindResult = Leader(url: string) | NoLeader(error: FindError)

  // ---- the finder ----

  function FirstWithId(ms: seq<Member>, id: string): Option<Member>
  {
    if ms == [] then None else if ms[0].id == id then Some(ms[0]) else FirstWithId(ms[1..], id)
  }

  predicate IsFirstWithId(ms: seq<Member>, id: string, k: int)
  {
    0 <= k < |ms| && ms[k].id == id && forall j :: 0 <= j < k ==> ms[j].id != id
  }

  lemma {:induction false} FirstWithIdExactly(ms: seq<Member>, id: string)
    ensures FirstWithId(ms, id).None? <==> forall k :: 0 <= k < |ms| ==> ms[k].id != id
    ensures FirstWithId(ms, id).Some? ==> exists k :: IsFirstWithId(ms, id, k) && ms[k] == FirstWithId(ms, id).value
  {
    if ms != [] && ms[0].id != id {
      FirstWithIdExactly(ms[1..], id);
      if FirstWithId(ms, id).Some? {
        var k :| IsFirstWithId(ms[1..], id, k) && ms[1..][k] == FirstWithId(ms[1..], id).value;
        assert forall j :: 0 < j <= k ==> ms[j] == ms[1..][j - 1];
        assert IsFirstWithId(ms, id, k + 1);
      }
    } else if ms != [] {
      assert IsFirstWithId(ms, id, 0);
    }
  }

  /** Whether the second request is made. */
  predicate AsksSelf(address: string, members: Reply<seq<Member>>)
  {
    address != "" && members.Got? && members.value != []
  }

  /** The outcome for a member list and a leader id. */
  function Choose(ms: seq<Member>, leader: string, parses: string -> bool): FindResult
  {
    match FirstWithId(ms, leader)
    case None => NoLeader(LeaderNotFound)
    case Some(m) =>
      if m.clientURLs == [] then NoLeader(NoClientURLsForLeader)
      else if m.clientURLs[0] == "" then NoLeader(LeaderNotFound)
      else if !parses(m.clientURLs[0]) then NoLeader(UnparsableURL(m.clientURLs[0]))
      else Leader(m.clientURLs[0])
  }

  function Outcome(address: string, members: Reply<seq<Member>>, self: Reply<string>, parses: string -> bool)
    : FindResult
  {
    if address == "" then NoLeader(NoAddressProvided)
    else if members.Failed? then NoLeader(RequestFailed(members.message))
    else if members.value == [] then NoLeader(MembersNotFound)
    else if self.Failed? then NoLeader(RequestFailed(self.message))
    else Choose(members.value, self.value, parses)
  }

  /** The search loop stops at the first member whose id is the leader's. */
  method Find(address: string, members: Reply<seq<Member>>, self: Reply<string>, parses: string -> bool)
    returns (r: FindResult)
    ensures r == Outcome(address, members, self, parses)
    ensures r.Leader? <==>
            && address != "" && members.Got? && self.Got?
            && exists k :: IsFirstWithId(members.value, self.value, k) && var urls := members.value[k].clientURLs;
                             urls != [] && urls[0] != "" && parses(urls[0]) && r == Leader(urls[0])
    ensures AsksSelf(address, members) && self.Got? ==>
              (r == NoLeader(NoClientURLsForLeader) <==>
               exists k :: IsFirstWithId(members.value, self.value, k) && members.value[k].clientURLs == [])
  {
    if address == "" {
      return NoLeader(NoAddressProvided);
    }
    if members.Failed? {
      return NoLeader(RequestFailed(members.message));
    }
    if members.value == [] {
      return NoLeader(MembersNotFound);
    }
    if self.Failed? {
      return NoLeader(RequestFailed(self.message));
    }
    var leaderURL := "";
    FirstWithIdExactly(members.value, self.value);
    for i := 0 to |members.value|
      invariant leaderURL == ""
      invariant FirstWithId(members.value, self.value) == FirstWithId(members.value[i..], self.value)
      invariant forall j :: 0 <= j < i ==> members.value[j].id != self.value
    {
      assert members.value[i..][1..] == members.value[i + 1..];
      if members.value[i].id == self.value {
        assert IsFirstWithId(members.value, self.value, i);
        assert forall k :: IsFirstWithId(members.value, self.value, k) ==> k == i;
        if members.value[i].clientURLs == [] {
          return NoLeader(NoClientURLsForLeader);
        }
        leaderURL := members.value[i].clientURLs[0];
        break;
      }
    }
    if leaderURL == "" {
      return NoLeader(LeaderNotFound);
    }
    if !parses(leaderURL) {
      return NoLeader(UnparsableURL(leaderURL));
    }
    r := Leader(leaderURL);
  }

  /** Each error of Find and its cause; all else is a leader. */
  lemma OutcomeExactly(address: string, members: Reply<seq<Member>>, self: Reply<string>, parses: string -> bool)
    ensures var r := Outcome(address, members, self, parses);
            && (r == NoLeader(NoAddressProvided) <==> address == "")
            && (r == NoLeader(MembersNotFound) <==> address != "" && members == Got([]))
            && (forall message :: r == NoLeader(RequestFailed(message)) <==>
                  address != "" &&
                  (members == Failed(message) || (members.Got? && members.value != [] && self == Failed(message))))
            && (address != "" && members.Got? && members.value != [] && self.Got? ==>
                  ChosenFor(r, members.value, self.value, parses))
  {
    if address != "" && members.Got? && members.value != [] && self.Got? {
      ChosenExactly(members.value, self.value, parses);
    }
  }

  /** With both replies the first member with the leader's id decides. */
  ghost predicate ChosenFor(r: FindResult, ms: seq<Member>, leader: string, parses: string -> bool)
  {
    || (r == NoLeader(LeaderNotFound) && forall m :: m in ms ==> m.id != leader)
    || exists k :: IsFirstWithId(ms, leader, k) && var urls := ms[k].clientURLs;
                     r == if urls == [] then NoLeader(NoClientURLsForLeader)
                          else if urls[0] == "" then NoLeader(LeaderNotFound)
                          else if parses(urls[0]) then Leader(urls[0])
                          else NoLeader(UnparsableURL(urls[0]))
  }

  lemma ChosenExactly(ms: seq<Member>, leader: string, parses: string -> bool)
    ensures ChosenFor(Choose(ms, leader, parses), ms, leader, parses)
  {
    FirstWithIdExactly(ms, leader);
    if FirstWithId(ms, leader).Some? {
      var k :| IsFirstWithId(ms, leader, k) && ms[k] == FirstWithId(ms, leader).value;
      assert IsFirstWithId(ms, leader, k);
    } else {
      assert forall m :: m in ms ==> exists k :: 0 <= k < |ms| && ms[k] == m;
    }
  }

  // ---- the manager ----

  class Manager {
    const defaultEtcdURL: string
    var address: string

    constructor (defaultEtcdURL: string)
      ensures this.defaultEtcdURL == defaultEtcdURL && address == defaultEtcdURL
    {
      this.defaultEtcdURL, address := defaultEtcdURL, defaultEtcdURL;
    }

    method SetAddress(address: string)
      modifies this`address
      ensures this.address == address
    {
      this.address := address;
    }

    method LeaderOrDefault() returns (address: string)
      ensures address == this.address
    {
      address := this.address;
    }

    /** The end of one poll. */
    method Store(result: FindResult)
      modifies this`address
      ensures address == ValueOf(result, defaultEtcdURL)
    {
      match result {
        case NoLeader(_) => SetAddress(defaultEtcdURL);
        case Leader(url) => SetAddress(url);
      }
    }
  }

  function ValueOf(result: FindResult, default: string): string
  {
    match result
    case NoLeader(_) => default
    case Leader(url) => url
  }

  // ---- the poll loop and the readers at once ----

  /** Where the poll loop is: asleep, with a member list, or about to store. */
  datatype Phase = Sleeping | Asking(members: Reply<seq<Member>>) | Storing(result: FindResult)

  /** `got` is what a reader was given. Storing and reading hold the lock, so each is one step. */
  datatype Event =
    | MembersReply(members: Reply<seq<Member>>)
    | SelfReply(self: Reply<string>)
    | Stored
    | Read(got: string)

  datatype State = State(address: string, phase: Phase)

  /** The configuration of a manager: whom it asks, what it falls back to, and which URLs parse. */
  datatype Setup = Setup(endpoint: string, default: string, parses: string -> bool)

  predicate Enabled(s: State, e: Event)
  {
    match e
    case MembersReply(_) => s.phase.Sleeping?
    case SelfReply(_) => s.phase.Asking?
    case Stored => s.phase.Storing?
    case Read(got) => got == s.address
  }

  function Next(c: Setup, s: State, e: Event): State
    requires Enabled(s, e)
  {
    match e
    case MembersReply(members) =>
      if AsksSelf(c.endpoint, members) then s.(phase := Asking(members))
      else s.(phase := Storing(Outcome(c.endpoint, members, Failed(""), c.parses)))
    case SelfReply(self) => s.(phase := Storing(Outcome(c.endpoint, s.phase.members, self, c.parses)))
    case Stored => State(ValueOf(s.phase.result, c.default), Sleeping)
    case Read(_) => s
  }

  /** The state after a trace, if the trace is possible. */
  function After(c: Setup, events: seq<Event>): Option<State>
  {
    if events == [] then Some(State(c.default, Sleeping))
    else
      match After(c, events[..|events| - 1])
      case None => None
      case Some(s) =>
        var e := events[|events| - 1];
        if Enabled(s, e) then Some(Next(c, s, e)) else None
  }

  /** The replies of one poll; there is no second one if it was not asked for. */
  datatype Poll = Poll(members: Reply<seq<Member>>, self: Option<Reply<string>>)

  /** The replies that came in since the last poll began, read off the trace. */
  function CurrentPoll(events: seq<Event>): Option<Poll>
  {
    if events == [] then None
    else
      var before := CurrentPoll(events[..|events| - 1]);
      match events[|events| - 1]
      case MembersReply(members) => Some(Poll(members, None))
      case SelfReply(self) => if before.Some? then Some(before.value.(self := Some(self))) else None
      case Stored => before
      case Read(_) => before
  }

  /** The last poll whose result has been stored. */
  function LastCompleted(events: seq<Event>): Option<Poll>
  {
    if events == [] then None
    else if events[|events| - 1].Stored? then CurrentPoll(events[..|events| - 1])
    else LastCompleted(events[..|events| - 1])
  }

  function PollResult(c: Setup, p: Poll): FindResult
  {
    Outcome(c.endpoint, p.members, if p.self.Some? then p.self.value else Failed(""), c.parses)
  }

  /** What a reader must be given: the default before any poll has completed, then the last one's value. */
  function Expected(c: Setup, events: seq<Event>): string
  {
    match LastCompleted(events)
    case None => c.default
    case Some(p) => ValueOf(PollResult(c, p), c.default)
  }

  ghost predicate Inv(c: Setup, events: seq<Event>, s: State)
  {
    && s.address == Expected(c, events)
    && (s.phase.Asking? ==> CurrentPoll(events) == Some(Poll(s.phase.members, None)) &&
                            AsksSelf(c.endpoint, s.phase.members))
    && (s.phase.Storing? ==> CurrentPoll(events).Some? && s.phase.result == PollResult(c, CurrentPoll(events).value))
  }

  lemma {:induction false} TraceKeepsInv(c: Setup, events: seq<Event>)
    requires After(c, events).Some?
    ensures Inv(c, events, After(c, events).value)
  {
    if events != [] {
      TraceKeepsInv(c, events[..|events| - 1]);
    }
  }

  lemma {:induction false} PrefixPossible(c: Setup, events: seq<Event>, k: nat)
    requires After(c, events).Some? && k <= |events|
    ensures After(c, events[..k]).Some?
    decreases |events|
  {
    if k == |events| {
      assert events[..k] == events;
    } else {
      var before := events[..|events| - 1];
      PrefixPossible(c, before, k);
      assert before[..k] == events[..k];
    }
  }

  /** In every interleaving each read returns the value of the last completed poll. */
  lemma ReadsLastCompleted(c: Setup, events: seq<Event>, k: nat)
    requires After(c, events).Some? && k < |events| && events[k].Read?
    ensures events[k].got == Expected(c, events[..k])
  {
    PrefixPossible(c, events, k + 1);
    assert events[..k + 1][..k] == events[..k];
    TraceKeepsInv(c, events[..k]);
  }

  /** A read is a leader's URL exactly if the last completed poll found the leader it named; else the default. */
  lemma ReadIsLeaderOrDefault(c: Setup, events: seq<Event>, k: nat)
    requires After(c, events).Some? && k < |events| && events[k].Read?
    ensures var p := LastCompleted(events[..k]);
            if p.Some? && PollResult(c, p.value).Leader? then
              && p.value.members.Got? && p.value.self.Some? && p.value.self.value.Got?
              && exists j :: IsFirstWithId(p.value.members.value, p.value.self.value.value, j) &&
                             p.value.members.value[j].clientURLs != [] &&
                             events[k].got == p.value.members.value[j].clientURLs[0]
            else events[k].got == c.default
  {
    ReadsLastCompleted(c, events, k);
    var p := LastCompleted(events[..k]);
    if p.Some? && PollResult(c, p.value).Leader? {
      FirstWithIdExactly(p.value.members.value, p.value.self.value.value);
    }
  }

  lemma AfterOne(c: Setup, events: seq<Event>, e: Event)
    ensures After(c, events + [e]) ==
            match After(c, events)
            case None => None
            case Some(s) => if Enabled(s, e) then Some(Next(c, s, e)) else None
  {
    assert (events + [e])[..|events|] == events;
  }

  /** After a whole poll a reader can be given the leader it found, or the default if none, and nothing else. */
  lemma PollThenRead(c: Setup, before: seq<Event>, members: Reply<seq<Member>>, self: Reply<string>, got: string)
    requires After(c, before).Some? && After(c, before).value.phase.Sleeping?
    ensures var r := Outcome(c.endpoint, members, self, c.parses);
            var replies := if c.endpoint != "" && members.Got? && members.value != []
                           then [MembersReply(members), SelfReply(self)] else [MembersReply(members)];
            After(c, before + replies + [Stored] + [Read(got)]).Some? <==>
            got == if r.Leader? then r.url else c.default
  {
    var first := before + [MembersReply(members)];
    AfterOne(c, before, MembersReply(members));
    var replies := if AsksSelf(c.endpoint, members) then first + [SelfReply(self)] else first;
    if AsksSelf(c.endpoint, members) {
      AfterOne(c, first, SelfReply(self));
      assert first + [SelfReply(self)] == before + [MembersReply(members), SelfReply(self)];
    }
    AfterOne(c, replies, Stored);
    AfterOne(c, replies + [Stored], Read(got));
  }

  /** A read stores nothing: before a poll is stored, all reads are of the same address, at first the default. */
  lemma ReadsBeforeStore(c: Setup, before: seq<Event>, e: Event, got: string, again: string)
    requires After(c, before + [Read(got)]).Some? && !e.Stored? && After(c, before + [Read(got)] + [e]).Some?
    ensures After(c, before + [Read(got)] + [e] + [Read(again)]).Some? <==> again == got
    ensures before == [] ==> got == c.default
  {
    AfterOne(c, before, Read(got));
    AfterOne(c, before + [Read(got)], e);
    AfterOne(c, before + [Read(got)] + [e], Read(again));
  }

  // ---- the object on a trace ----

  /** The poll loop's variables and the manager agree with a state. */
  ghost predicate Agree(s: State, m: Manager, members: Reply<seq<Member>>, result: FindResult)
    reads m
  {
    && m.address == s.address
    && (s.phase.Asking? ==> members == s.phase.members)
    && (s.phase.Storing? ==> result == s.phase.result)
  }

  /** One event, by the manager's own methods. */
  method ServeOne(m: Manager, c: Setup, ghost s: State, e: Event, members: Reply<seq<Member>>, result: FindResult)
    returns (members': Reply<seq<Member>>, result': FindResult, read: Option<string>)
    requires Enabled(s, e) && Agree(s, m, members, result) && m.defaultEtcdURL == c.default
    modifies m
    ensures Agree(Next(c, s, e), m, members', result')
    ensures read == if e.Read? then Some(s.address) else None
  {
    members', result', read := members, result, None;
    match e {
      case MembersReply(reply) =>
        members' := reply;
        if !AsksSelf(c.endpoint, reply) {
          result' := Find(c.endpoint, reply, Failed(""), c.parses);
        }
      case SelfReply(self) =>
        result' := Find(c.endpoint, members, self, c.parses);
      case Stored =>
        m.Store(result);
      case Read(_) =>
        var got := m.LeaderOrDefault();
        read := Some(got);
    }
  }

  lemma NextPossible(c: Setup, events: seq<Event>, k: nat)
    requires After(c, events).Some? && k < |events|
    ensures After(c, events[..k]).Some? && Enabled(After(c, events[..k]).value, events[k])
    ensures After(c, events[..k + 1]) == Some(Next(c, After(c, events[..k]).value, events[k]))
    ensures After(c, events[..k]).value.address == Expected(c, events[..k])
  {
    PrefixPossible(c, events, k + 1);
    assert events[..k + 1][..k] == events[..k];
    TraceKeepsInv(c, events[..k]);
  }

  /** The manager object on a whole trace: each read returns what ReadsLastCompleted says, and afterwards the address
      is what the next one would return. */
  method Serve(c: Setup, events: seq<Event>) returns (given: seq<Option<string>>, address: string)
    requires After(c, events).Some?
    ensures |given| == |events|
    ensures forall k :: 0 <= k < |events| ==>
              given[k] == if events[k].Read? then Some(Expected(c, events[..k])) else None
    ensures address == Expected(c, events)
  {
    var m := new Manager(c.default);
    var members, result := Failed(""), NoLeader(LeaderNotFound);
    given := [];
    for k := 0 to |events|
      invariant |given| == k && fresh(m) && m.defaultEtcdURL == c.default
      invariant forall j :: 0 <= j < k ==> given[j] == if events[j].Read? then Some(Expected(c, events[..j])) else None
      invariant After(c, events[..k]).Some? && Agree(After(c, events[..k]).value, m, members, result)
    {
      NextPossible(c, events, k);
      var read;
      members, result, read := ServeOne(m, c, After(c, events[..k]).value, events[k], members, result);
      given := given + [read];
    }
    assert events[..|events|] == events;
    TraceKeepsInv(c, events);
    address := m.LeaderOrDefault();
  }
}
