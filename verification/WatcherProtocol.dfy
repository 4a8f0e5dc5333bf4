/** The watcher's goroutines at once: the loop, the listener of the current connection, the client that
    feeds it, and a server whose log grows. The receiving channel has no buffer; github.com/coreos/go-etcd
    is not part of this model: its Watch is taken to deliver, from the wait index on, the next event of the
    log, each time continuing after the one before, and to close the channel when it returns. */
module WatcherProtocol {
  import opened Wrappers
  import opened Watcher

  /** The loop: about to read the resume index, watching from `next` on, or waiting for the listener. */
  datatype Loop =
    | Resuming
    | Watching(next: nat)
    | Waiting(failed: bool)
    | Stopped

  /** The listener: receiving, holding an event it has yet to apply, or done with a closed channel. */
  datatype Listener =
    | Receiving
    | Holding(event: Event)
    | Signalling

  /** `pending` is an event the client has fetched but not handed over; `stale` one that a listener left
      behind by the loop still holds; `applied` is the history. */
  datatype State = State(
    log: seq<Event>,
    data: map<string, string>,
    lastModifiedIndex: nat,
    applied: seq<Event>,
    loop: Loop,
    pending: Option<Event>,
    closed: bool,
    listener: Listener,
    stale: Option<Event>)

  datatype Step =
    | Append(event: Event)      // etcd changes
    | Resume                    // the loop reads the index and calls Watch
    | Fetch                     // the client receives the next event
    | HandOver                  // and sends it to the listener
    | Apply                     // AddData
    | Return(failed: bool)      // Watch returns: the channel is closed
    | SeeClosed                 // the listener finds it closed
    | Reopen                    // the loop passes the barrier, with a new channel and listener if it goes on
    | ApplyStale

  /** What the server sends next to a client waiting for an index. */
  function NextServed(log: seq<Event>, next: nat): Option<Event>
  {
    var rest := ServedFrom(log, next);
    if rest == [] then None else Some(rest[0])
  }

  /** With the barrier, the loop goes on only after the listener's signal. */
  predicate Enabled(s: State, step: Step, barrier: bool)
  {
    match step
    case Append(e) => e.index > LastIndex(s.log)
    case Resume => s.loop.Resuming?
    case Fetch => s.loop.Watching? && s.pending.None? && NextServed(s.log, s.loop.next).Some?
    case HandOver => s.pending.Some? && s.listener.Receiving?
    case Apply => s.listener.Holding?
    case Return(_) => s.loop.Watching? && s.pending.None?
    case SeeClosed => s.closed && s.listener.Receiving?
    case Reopen => s.loop.Waiting? && (barrier ==> s.listener.Signalling?) && s.stale.None?
    case ApplyStale => s.stale.Some?
  }

  function Applied(s: State, e: Event): State
  {
    s.(data := s.data[e.key := e.value], lastModifiedIndex := e.index, applied := s.applied + [e])
  }

  function Next(s: State, step: Step, barrier: bool): State
    requires Enabled(s, step, barrier)
  {
    match step
    case Append(e) => s.(log := s.log + [e])
    case Resume => s.(loop := Watching(s.lastModifiedIndex + 1))
    case Fetch =>
      var e := NextServed(s.log, s.loop.next).value;
      s.(pending := Some(e), loop := Watching(e.index + 1))
    case HandOver => s.(listener := Holding(s.pending.value), pending := None)
    case Apply => Applied(s, s.listener.event).(listener := Receiving)
    case Return(failed) => s.(closed := true, loop := Waiting(failed))
    case SeeClosed => s.(listener := Signalling)
    case Reopen =>
      if s.loop.failed then
        s.(loop := Resuming, closed := false, listener := Receiving,
           stale := if s.listener.Holding? then Some(s.listener.event) else None)
      else s.(loop := Stopped)
    case ApplyStale => Applied(s, s.stale.value).(stale := None)
  }

  function Initial(log: seq<Event>): State
  {
    State(log, map[], 0, [], Resuming, None, false, Receiving, None)
  }

  predicate Run(s: State, steps: seq<Step>, t: State, barrier: bool)
    decreases |steps|
  {
    if steps == [] then s == t
    else Enabled(s, steps[0], barrier) && Run(Next(s, steps[0], barrier), steps[1..], t, barrier)
  }

  // ---- with the barrier ----

  function InFlight(s: State): seq<Event>
  {
    (if s.listener.Holding? then [s.listener.event] else []) + (if s.pending.Some? then [s.pending.value] else [])
  }

  /** Applied, held and pending events are the log's first ones, in order; the loop resumes where they end. */
  predicate Good(s: State)
  {
    var taken := s.applied + InFlight(s);
    && IsLog(s.log) && taken <= s.log && s.stale.None?
    && s.data == Replay(s.applied) && s.lastModifiedIndex == LastIndex(s.applied)
    && (s.loop.Watching? ==> s.loop.next == LastIndex(taken) + 1 && !s.closed && !s.listener.Signalling?)
    && (!s.loop.Watching? ==> s.pending.None?)
    && (s.loop.Resuming? ==> s.listener.Receiving? && !s.closed)
    && (s.loop.Waiting? ==> s.closed)
    && (s.loop.Stopped? ==> s.listener.Signalling?)
  }

  lemma GrownLog(log: seq<Event>, e: Event)
    requires IsLog(log) && e.index > LastIndex(log)
    ensures IsLog(log + [e])
  {
  }

  lemma NextIsMissing(log: seq<Event>, taken: seq<Event>)
    requires IsLog(log) && taken <= log
    ensures NextServed(log, LastIndex(taken) + 1) == if |taken| < |log| then Some(log[|taken|]) else None
  {
    assert taken == log[..|taken|];
    ServedFromResumes(log, |taken|);
  }

  lemma FetchStaysGood(s: State)
    requires Good(s) && Enabled(s, Fetch, true)
    ensures Good(Next(s, Fetch, true))
  {
    var taken := s.applied + InFlight(s);
    var t := Next(s, Fetch, true);
    NextIsMissing(s.log, taken);
    assert t.applied + InFlight(t) == taken + [s.log[|taken|]];
  }

  lemma ApplyStaysGood(s: State)
    requires Good(s) && Enabled(s, Apply, true)
    ensures Good(Next(s, Apply, true))
  {
    var t := Next(s, Apply, true);
    ReplayNext(s.applied, s.listener.event);
    assert t.applied + InFlight(t) == s.applied + InFlight(s);
  }

  lemma StepStaysGood(s: State, step: Step)
    requires Good(s) && Enabled(s, step, true)
    ensures Good(Next(s, step, true))
  {
    var t := Next(s, step, true);
    match step {
      case Append(e) =>
        GrownLog(s.log, e);
        assert s.log <= t.log;
      case Fetch => FetchStaysGood(s);
      case Apply => ApplyStaysGood(s);
      case HandOver => assert t.applied + InFlight(t) == s.applied + InFlight(s);
      case Resume => assert s.applied + InFlight(s) == s.applied;
      case Return(_) => assert InFlight(t) == InFlight(s);
      case SeeClosed => assert InFlight(t) == InFlight(s);
      case Reopen => assert InFlight(t) == InFlight(s) == [];
      case ApplyStale => assert false;
    }
  }

  lemma StepGrows(s: State, step: Step)
    requires Good(s) && Enabled(s, step, true)
    ensures s.log <= Next(s, step, true).log && s.applied <= Next(s, step, true).applied
  {
  }

  lemma RunStaysGood(s: State, steps: seq<Step>, t: State)
    requires Good(s) && Run(s, steps, t, true)
    ensures Good(t)
    decreases |steps|
  {
    if steps != [] {
      StepStaysGood(s, steps[0]);
      RunStaysGood(Next(s, steps[0], true), steps[1..], t);
    }
  }

  lemma RunGrows(s: State, steps: seq<Step>, t: State)
    requires Good(s) && Run(s, steps, t, true)
    ensures s.log <= t.log && s.applied <= t.applied
    decreases |steps|
  {
    if steps != [] {
      StepStaysGood(s, steps[0]);
      StepGrows(s, steps[0]);
      RunGrows(Next(s, steps[0], true), steps[1..], t);
    }
  }

  lemma GoodMeansPrefix(s: State)
    requires Good(s)
    ensures s.applied <= s.log && s.data == Replay(s.applied)
  {
  }

  /** Over any interleaving, with any pattern of dropped connections and a log that grows meanwhile, what
      has been applied is a prefix of the log, and the cache is its replay. */
  lemma ReplaysPrefix(s: State, steps: seq<Step>, t: State)
    requires Good(s) && Run(s, steps, t, true)
    ensures Good(t) && t.applied <= t.log && t.data == Replay(t.applied)
    ensures s.log <= t.log && s.applied <= t.applied
  {
    RunStaysGood(s, steps, t);
    RunGrows(s, steps, t);
    GoodMeansPrefix(t);
  }

  lemma StartsGood(log: seq<Event>)
    requires IsLog(log)
    ensures Good(Initial(log))
  {
    assert Initial(log).applied + InFlight(Initial(log)) == [];
  }

  /** So it is from the start, for any log. */
  lemma ReplaysFromStart(log: seq<Event>, steps: seq<Step>, t: State)
    requires IsLog(log) && Run(Initial(log), steps, t, true)
    ensures Good(t) && log <= t.log && t.applied <= t.log && t.data == Replay(t.applied)
  {
    StartsGood(log);
    ReplaysPrefix(Initial(log), steps, t);
  }

  /** And nothing is missing once the watching client has nothing left to fetch or hand over. */
  lemma QuietMeansComplete(s: State)
    requires Good(s) && s.loop.Watching? && InFlight(s) == [] && !Enabled(s, Fetch, true)
    ensures s.applied == s.log && s.data == Replay(s.log)
  {
    assert s.applied + InFlight(s) == s.applied;
    NextIsMissing(s.log, s.applied);
  }

  /** The step that is due next, unless the loop has ended or all is applied. */
  function Due(s: State): (step: Option<Step>)
    ensures step.Some? ==> Enabled(s, step.value, true)
  {
    match s.listener
    case Holding(_) => Some(Apply)
    case Signalling => if s.loop.Waiting? && s.stale.None? then Some(Reopen) else None
    case Receiving =>
      if s.pending.Some? then Some(HandOver)
      else match s.loop
        case Resuming => Some(Resume)
        case Watching(next) => if NextServed(s.log, next).Some? then Some(Fetch) else None
        case Waiting(_) => if s.closed then Some(SeeClosed) else None
        case Stopped => None
  }

  /** How many due steps there are, at most: three per missing event, and the way back to watching. */
  function Work(s: State): nat
    requires Good(s)
  {
    3 * (|s.log| - |s.applied + InFlight(s)|) + (if s.pending.Some? then 2 else 0) +
    (if s.listener.Holding? then 1 else 0) +
    if s.loop.Resuming? then 1
    else if s.loop.Waiting? then (if s.listener.Signalling? then 2 else 3) else 0
  }

  /** The loop has not ended and is not about to. */
  predicate GoesOn(s: State) { !s.loop.Stopped? && (s.loop.Waiting? ==> s.loop.failed) }

  lemma DueStepHelps(s: State)
    requires Good(s) && GoesOn(s) && Due(s).Some?
    ensures var t := Next(s, Due(s).value, true); Good(t) && GoesOn(t) && Work(t) < Work(s) && t.log == s.log
  {
    var step := Due(s).value;
    var t := Next(s, step, true);
    StepStaysGood(s, step);
    if step.Fetch? {
      NextIsMissing(s.log, s.applied + InFlight(s));
      assert |InFlight(t)| == |InFlight(s)| + 1;
    }
  }

  lemma NothingDueMeansComplete(s: State)
    requires Good(s) && GoesOn(s) && Due(s).None?
    ensures s.applied == s.log
  {
    assert s.applied + InFlight(s) == s.applied;
    NextIsMissing(s.log, s.applied);
  }

  /** Wherever the goroutines are, unless the loop is ending they can catch up: some run applies the whole log. */
  lemma {:induction false} CatchesUp(s: State) returns (steps: seq<Step>, t: State)
    requires Good(s) && GoesOn(s)
    ensures Run(s, steps, t, true)
    ensures t.log == s.log && t.applied == s.log && t.data == Replay(s.log)
    decreases Work(s)
  {
    if Due(s).None? {
      NothingDueMeansComplete(s);
      steps, t := [], s;
    } else {
      DueStepHelps(s);
      var rest;
      rest, t := CatchesUp(Next(s, Due(s).value, true));
      steps := [Due(s).value] + rest;
      assert steps[1..] == rest;
    }
  }

  // ---- without the barrier ----

  /** Drop the connection while the listener still holds the first event... */
  function Drop(): seq<Step>
  {
    [Resume, Fetch, HandOver, Return(true), Reopen]
  }

  /** ...and resume at once. */
  function ResumeAtOnce(): seq<Step>
  {
    [Resume, ApplyStale, Fetch, HandOver, Apply]
  }

  lemma ServedFirst(e: Event)
    requires e.index == 1
    ensures NextServed([e], 1) == Some(e)
  {
    assert ServedFrom([e], 1) == [e];
  }

  lemma DropRun(e: Event)
    requires e.index == 1
    ensures Run(Initial([e]), Drop(), Initial([e]).(stale := Some(e)), false)
  {
    ServedFirst(e);
    var s0 := Initial([e]);
    var s2 := s0.(loop := Watching(2), pending := Some(e));
    var t := s0.(stale := Some(e));
    var h := Drop();
    assert Run(s2, h[2..], t, false) by {
      var s3 := s2.(pending := None, listener := Holding(e));
      var s4 := s3.(closed := true, loop := Waiting(true));
      assert Next(s4, Reopen, false) == t;
      assert h[2..] == [HandOver, Return(true), Reopen];
      assert h[2..][1..] == [Return(true), Reopen] && h[2..][1..][1..] == [Reopen];
      assert Run(s4, [Reopen], t, false);
      assert Run(s3, [Return(true), Reopen], t, false);
    }
    assert h[1..] == [Fetch] + h[2..] && h[1..][1..] == h[2..];
    assert Run(s0.(loop := Watching(1)), h[1..], t, false);
  }

  lemma ResumeRun(e: Event, s: State, t: State)
    requires e.index == 1 && s == Initial([e]).(stale := Some(e))
    requires t == Applied(Applied(s, e).(stale := None), e).(loop := Watching(2))
    ensures Run(s, ResumeAtOnce(), t, false)
  {
    ServedFirst(e);
    var s2 := Applied(s, e).(stale := None, loop := Watching(1));
    var h := ResumeAtOnce();
    assert Run(s2, h[2..], t, false) by {
      var s3 := s2.(pending := Some(e), loop := Watching(2));
      var s4 := s3.(pending := None, listener := Holding(e));
      assert Next(s4, Apply, false) == t;
      assert h[2..] == [Fetch, HandOver, Apply];
      assert h[2..][1..] == [HandOver, Apply] && h[2..][1..][1..] == [Apply];
      assert Run(s4, [Apply], t, false);
      assert Run(s3, [HandOver, Apply], t, false);
    }
    assert h[1..] == [ApplyStale] + h[2..] && h[1..][1..] == h[2..];
    assert Run(s.(loop := Watching(1)), h[1..], t, false);
  }

  lemma RunConcat(s: State, first: seq<Step>, m: State, second: seq<Step>, t: State, barrier: bool)
    requires Run(s, first, m, barrier) && Run(m, second, t, barrier)
    ensures Run(s, first + second, t, barrier)
    decreases |first|
  {
    if first == [] {
      assert first + second == second;
    } else {
      RunConcat(Next(s, first[0], barrier), first[1..], m, second, t, barrier);
      assert (first + second)[1..] == first[1..] + second;
    }
  }

  /** Without the barrier the resume index is stale: the first event is applied twice. */
  lemma BarrierNeeded(e: Event)
    requires e.index == 1
    ensures exists t ::
              Run(Initial([e]), Drop() + ResumeAtOnce(), t, false) && t.applied == [e, e] && !(t.applied <= t.log)
  {
    var s := Initial([e]).(stale := Some(e));
    var t := Applied(Applied(s, e).(stale := None), e).(loop := Watching(2));
    DropRun(e);
    ResumeRun(e, s, t);
    RunConcat(Initial([e]), Drop(), s, ResumeAtOnce(), t, false);
    assert t.applied == [e, e];
  }
}
