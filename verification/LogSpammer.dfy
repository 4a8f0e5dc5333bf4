/** The spammer that sends numbered log lines and looks for them in the log stream:
    acceptance-tests/cf-tls-upgrade/logspammer/logspammer.go. */
module LogSpammer {
  import opened Wrappers
  import opened Text
  import opened ErrorSets

  // ---- the printed line and its parser ----

  /** What is requested for number `n`, and what the logspinner app prints for it. */
  function Sent(prefix: string, n: nat): string { prefix + "-" + Decimal(n) + "-" }

  function Line(time: string, text: string, end: string): string { "[" + time + "] " + text + end }

  function Prefix(r: nat): string { "spammer" + "-" + Decimal(r) }

  /** How much of `s` the rest `.*\] ` of the pattern takes: as much as possible, within the line. */
  function LastClose(s: string): Option<nat>
  {
    if s == "" || s[0] == '\n' then None
    else
      match LastClose(s[1..])
      case Some(n) => Some(n + 1)
      case None => if |s| >= 2 && s[0] == ']' && s[1] == ' ' then Some(2) else None
  }

  lemma LastCloseWithin(s: string)
    ensures LastClose(s).Some? ==> LastClose(s).value <= |s|
  {
  }

  /** `regexp.MustCompile("\[.*\] ").ReplaceAllLiteralString(s, "")`. */
  function DropTimestamps(s: string): string
    decreases |s|
  {
    if s == "" then ""
    else if s[0] != '[' then [s[0]] + DropTimestamps(s[1..])
    else
      LastCloseWithin(s[1..]);
      match LastClose(s[1..])
      case None => [s[0]] + DropTimestamps(s[1..])
      case Some(n) => DropTimestamps(s[1 + n..])
  }

  function ParseLog(message: string): Option<int>
  {
    if Contains(message, "TEST") then None
    else
      var parts := Split(DropTimestamps(message), '-');
      if |parts| >= 3 then Atoi(parts[2]) else None
  }

  lemma {:induction false} NoClose(s: string)
    requires ']' !in s
    ensures LastClose(s) == None
  {
    if s != "" { NoClose(s[1..]); }
  }

  /** The match is greedy: a timestamp may itself hold brackets. */
  lemma {:induction false} LastCloseAfter(time: string, text: string)
    requires '\n' !in time && ']' !in text
    ensures LastClose(time + "] " + text) == Some(|time| + 2)
  {
    var s := time + "] " + text;
    if time == "" {
      assert s[1..] == " " + text;
      NoClose(" " + text);
    } else {
      assert s[1..] == time[1..] + "] " + text;
      LastCloseAfter(time[1..], text);
    }
  }

  lemma {:induction false} NothingToDrop(s: string)
    requires '[' !in s
    ensures DropTimestamps(s) == s
  {
    if s != "" {
      NothingToDrop(s[1..]);
      assert [s[0]] + s[1..] == s;
    }
  }

  lemma TimestampDropped(time: string, text: string)
    requires '\n' !in time && '[' !in text && ']' !in text
    ensures DropTimestamps("[" + time + "] " + text) == text
  {
    var s := "[" + time + "] " + text;
    assert s[1..] == time + "] " + text;
    LastCloseAfter(time, text);
    assert s[1 + (|time| + 2)..] == text;
    NothingToDrop(text);
  }

  /** The rest of a match ends after `n` characters of a line. */
  predicate ClosesAt(s: string, n: int)
  {
    2 <= n <= |s| && s[n - 2] == ']' && s[n - 1] == ' ' && '\n' !in s[..n]
  }

  /** The match goes on to the last place in the line where it can end. */
  lemma {:induction false} LastCloseExactly(s: string)
    ensures LastClose(s).Some? ==> ClosesAt(s, LastClose(s).value)
    ensures forall n: nat :: ClosesAt(s, n) ==> LastClose(s).Some? && n <= LastClose(s).value
  {
    if s != "" && s[0] != '\n' {
      LastCloseExactly(s[1..]);
      forall n: nat | ClosesAt(s, n) ensures LastClose(s).Some? && n <= LastClose(s).value {
        if n > 2 {
          assert s[1..][..n - 1] == s[..n][1..];
          assert ClosesAt(s[1..], n - 1);
        }
      }
      if LastClose(s[1..]).Some? {
        var n := LastClose(s[1..]).value;
        assert s[..n + 1] == [s[0]] + s[1..][..n];
      }
    } else {
      assert forall n: nat :: 2 <= n <= |s| ==> s[0] in s[..n];
    }
  }

  lemma {:induction false} DropAfter(front: string, rest: string)
    requires '[' !in front
    ensures DropTimestamps(front + rest) == front + DropTimestamps(rest)
  {
    if front == "" {
      assert front + rest == rest;
    } else {
      assert (front + rest)[1..] == front[1..] + rest;
      DropAfter(front[1..], rest);
      assert [front[0]] + front[1..] == front;
    }
  }

  /** The first bracket begins a match if the line can close it, and the search goes on after the match. */
  lemma {:induction false} MatchDropped(front: string, rest: string, n: nat)
    requires '[' !in front && ClosesAt(rest, n) && forall m: nat :: ClosesAt(rest, m) ==> m <= n
    ensures DropTimestamps(front + ("[" + rest)) == front + DropTimestamps(rest[n..])
  {
    DropAfter(front, "[" + rest);
    LastCloseExactly(rest);
    assert ("[" + rest)[1..] == rest && ("[" + rest)[1 + n..] == rest[n..];
  }

  lemma {:induction false} BracketKept(front: string, rest: string)
    requires '[' !in front && forall m: nat :: !ClosesAt(rest, m)
    ensures DropTimestamps(front + ("[" + rest)) == front + ("[" + DropTimestamps(rest))
  {
    DropAfter(front, "[" + rest);
    LastCloseExactly(rest);
    assert ("[" + rest)[1..] == rest;
  }

  /** A message that holds the word TEST has no number. */
  lemma TestIgnored(a: string, b: string)
    ensures ParseLog(a + "TEST" + b) == None
  {
    ContainsExactly(a + "TEST" + b, "TEST");
  }

  /** Else its number is what stands between the second dash and the next one, or the end. */
  lemma NumberExactly(message: string, a: string, b: string, c: string, rest: string)
    requires !Contains(message, "TEST") && '-' !in a && '-' !in b && '-' !in c
    requires DropTimestamps(message) in {a + "-" + (b + "-" + c), a + "-" + (b + "-" + (c + "-" + rest))}
    ensures ParseLog(message) == Atoi(c)
  {
    SplitPlain(c, '-');
    SplitFirst(c, rest, '-');
    SplitFirst(b, c, '-');
    SplitFirst(b, c + "-" + rest, '-');
    SplitFirst(a, b + "-" + c, '-');
    SplitFirst(a, b + "-" + (c + "-" + rest), '-');
  }

  /** With fewer dashes there is none. */
  lemma NoNumber(message: string, a: string, b: string)
    requires '-' !in a && '-' !in b && DropTimestamps(message) in {a, a + "-" + b}
    ensures ParseLog(message) == None
  {
    SplitPlain(a, '-');
    SplitPlain(b, '-');
    SplitFirst(a, b, '-');
  }

  lemma DigitsOnly(n: nat, c: char)
    requires !IsDigit(c)
    ensures c !in Decimal(n)
  {
    assert forall k :: 0 <= k < |Decimal(n)| ==> IsDigit(Decimal(n)[k]);
  }

  lemma Regroup(a: string, b: string, c: string, end: string, sep: char)
    ensures a + [sep] + b + [sep] + c + [sep] + end == a + [sep] + (b + [sep] + (c + [sep] + end))
  {
  }

  lemma SplitLast(c: string, end: string, sep: char)
    requires sep !in c && sep !in end
    ensures Split(c + [sep] + end, sep) == [c, end]
  {
    SplitPlain(end, sep);
    SplitFirst(c, end, sep);
  }

  lemma SplitOneMore(a: string, rest: string, sep: char, parts: seq<string>)
    requires sep !in a && Split(rest, sep) == parts
    ensures Split(a + [sep] + rest, sep) == [a] + parts
  {
    SplitFirst(a, rest, sep);
  }

  lemma SplitParts(a: string, b: string, c: string, end: string, sep: char)
    requires sep !in a && sep !in b && sep !in c && sep !in end
    ensures Split(a + [sep] + b + [sep] + c + [sep] + end, sep) == [a, b, c, end]
  {
    SplitLast(c, end, sep);
    SplitOneMore(b, c + [sep] + end, sep, [c, end]);
    SplitOneMore(a, b + [sep] + (c + [sep] + end), sep, [b] + [c, end]);
    Regroup(a, b, c, end, sep);
  }

  lemma SentParts(r: nat, n: nat, end: string)
    requires '-' !in end
    ensures Split(Sent(Prefix(r), n) + end, '-') == ["spammer", Decimal(r), Decimal(n), end]
  {
    DigitsOnly(r, '-');
    DigitsOnly(n, '-');
    var spammer := "spammer";
    assert '-' !in spammer;
    SplitParts(spammer, Decimal(r), Decimal(n), end, '-');
  }

  lemma SentPlain(r: nat, n: nat, end: string, c: char)
    requires c == '[' || c == ']'
    requires c !in end
    ensures c !in Sent(Prefix(r), n) + end
  {
    DigitsOnly(r, c);
    DigitsOnly(n, c);
    assert c !in "spammer" && c !in "-";
  }

  /** Print and parse: the number comes back, whatever the timestamp looks like. */
  lemma LogRoundTrip(time: string, r: nat, n: nat, end: string)
    requires '\n' !in time && n <= MAX_INT && (end == "" || end == "\n")
    requires !Contains(Line(time, Sent(Prefix(r), n), end), "TEST")
    ensures ParseLog(Line(time, Sent(Prefix(r), n), end)) == Some(n)
  {
    var text := Sent(Prefix(r), n) + end;
    assert Line(time, Sent(Prefix(r), n), end) == "[" + time + "] " + text;
    SentPlain(r, n, end, '[');
    SentPlain(r, n, end, ']');
    TimestampDropped(time, text);
    SentParts(r, n, end);
    DecimalRoundTrip(n);
  }

  // ---- missing numbers ----

  function Numbers(messages: seq<string>): set<int>
  {
    if messages == [] then {}
    else Numbers(messages[..|messages| - 1]) + Number(messages[|messages| - 1])
  }

  function Number(message: string): set<int>
  {
    match ParseLog(message)
    case None => {}
    case Some(n) => {n}
  }

  /** The numbers of some messages are those that one of them has. */
  lemma {:induction false} NumbersExactly(messages: seq<string>, n: int)
    ensures n in Numbers(messages) <==> exists m :: m in messages && ParseLog(m) == Some(n)
  {
    if messages != [] {
      var before, last := messages[..|messages| - 1], messages[|messages| - 1];
      NumbersExactly(before, n);
      assert messages == before + [last];
      assert n in Number(last) <==> ParseLog(last) == Some(n);
    }
  }

  /** The numbers below `n` that were not received, in order. */
  function Missing(n: nat, received: set<int>): seq<nat>
  {
    if n == 0 then [] else Missing(n - 1, received) + if n - 1 in received then [] else [n - 1]
  }

  function Within(n: nat, received: set<int>): (s: set<int>)
    ensures s <= received
  {
    set k | k in received && 0 <= k < n
  }

  lemma {:induction false} MissingExactly(n: nat, received: set<int>)
    ensures forall k :: k in Missing(n, received) <==> 0 <= k < n && k !in received
    ensures forall i, j :: 0 <= i < j < |Missing(n, received)| ==> Missing(n, received)[i] < Missing(n, received)[j]
  {
    if n > 0 {
      MissingExactly(n - 1, received);
      var before := Missing(n - 1, received);
      forall i | 0 <= i < |before| ensures before[i] < n - 1 { assert before[i] in before; }
    }
  }

  lemma {:induction false} MissingSplit(n: nat, received: set<int>)
    ensures |Missing(n, received)| + |Within(n, received)| == n
  {
    if n > 0 {
      MissingSplit(n - 1, received);
      if n - 1 in received {
        assert Within(n, received) == Within(n - 1, received) + {n - 1};
      } else {
        assert Within(n, received) == Within(n - 1, received);
      }
    } else {
      assert Within(0, received) == {};
    }
  }

  lemma SubsetSize(a: set<int>, b: set<int>)
    requires a <= b
    ensures |a| <= |b| && (|a| == |b| <==> a == b)
  {
    assert b == a + (b - a);
  }

  /** The difference Check prints is a lower bound on what is missing, exact when nothing unknown came in. */
  lemma MissingCount(n: nat, received: set<int>)
    ensures |Missing(n, received)| >= n - |received|
    ensures |Missing(n, received)| == n - |received| <==> forall k :: k in received ==> 0 <= k < n
  {
    MissingSplit(n, received);
    SubsetSize(Within(n, received), received);
    assert Within(n, received) == received <==> forall k :: k in received ==> 0 <= k < n;
  }

  // ---- the spammer ----

  datatype SendResult = SendFailed(message: string) | SentAt(time: string)

  /** A message of the stream: absent, without a log line, or a log line. */
  datatype Envelope = Nothing | NoLog | Log(source: string, out: bool, message: string)

  predicate FromApp(e: Envelope) { e.Log? && e.source == "APP/PROC/WEB" && e.out }

  function Times(results: seq<SendResult>): seq<string>
  {
    if results == [] then []
    else
      var last := results[|results| - 1];
      Times(results[..|results| - 1]) + if last.SentAt? then [last.time] else []
  }

  function SendErrors(results: seq<SendResult>): multiset<string>
  {
    if results == [] then multiset{}
    else
      var last := results[|results| - 1];
      SendErrors(results[..|results| - 1]) + if last.SentAt? then multiset{} else multiset{last.message}
  }

  /** The number of each request: one is used until a request with it succeeds. */
  function Requested(first: nat, results: seq<SendResult>): seq<nat>
  {
    if results == [] then []
    else
      var before := results[..|results| - 1];
      Requested(first, before) + [first + |Times(before)|]
  }

  lemma RequestedNext(first: nat, results: seq<SendResult>, i: nat)
    requires i < |results|
    ensures Requested(first, results[..i + 1]) == Requested(first, results[..i]) + [first + |Times(results[..i])|]
  {
    assert results[..i + 1][..i] == results[..i];
  }

  /** No request uses a number beyond the next one to be written. */
  lemma {:induction false} RequestedWithin(first: nat, results: seq<SendResult>)
    ensures forall n :: n in Requested(first, results) ==> first <= n <= first + |Times(results)|
    ensures forall n :: first <= n < first + |Times(results)| ==> n in Requested(first, results)
  {
    if results != [] { RequestedWithin(first, results[..|results| - 1]); }
  }

  function Accepted(stream: seq<Envelope>): seq<string>
  {
    if stream == [] then []
    else
      var last := stream[|stream| - 1];
      Accepted(stream[..|stream| - 1]) + if FromApp(last) then [last.message] else []
  }

  /** Of two parts of a stream the kept messages follow each other; of one message, it is kept if it is one of the
      app's standard output. */
  lemma {:induction false} AcceptedExactly(a: seq<Envelope>, b: seq<Envelope>, e: Envelope)
    ensures Accepted([]) == [] && Accepted(a + b) == Accepted(a) + Accepted(b)
    ensures Accepted([e]) == if e.Log? && e.source == "APP/PROC/WEB" && e.out then [e.message] else []
  {
    assert Accepted([e]) == Accepted([]) + if FromApp(e) then [e.message] else [];
    if b == [] {
      assert a + b == a;
    } else {
      assert (a + b)[..|a + b| - 1] == a + b[..|b| - 1];
      AcceptedExactly(a, b[..|b| - 1], e);
    }
  }

  /** Of the results, the times of the successful requests and the messages of the failed ones. */
  lemma {:induction false} ResultsExactly(a: seq<SendResult>, b: seq<SendResult>, text: string)
    ensures Times(a + b) == Times(a) + Times(b) && SendErrors(a + b) == SendErrors(a) + SendErrors(b)
    ensures Times([]) == [] && Times([SentAt(text)]) == [text] && Times([SendFailed(text)]) == []
    ensures SendErrors([]) == SendErrors([SentAt(text)]) == multiset{}
    ensures SendErrors([SendFailed(text)]) == multiset{text}
  {
    assert Times([SentAt(text)]) == Times([]) + [text] && Times([SendFailed(text)]) == Times([]) + [];
    if b == [] {
      assert a + b == a;
    } else {
      assert (a + b)[..|a + b| - 1] == a + b[..|b| - 1];
      ResultsExactly(a, b[..|b| - 1], text);
    }
  }

  lemma ResultsNext(results: seq<SendResult>, i: nat)
    requires i < |results|
    ensures Times(results[..i + 1]) ==
            Times(results[..i]) + if results[i].SentAt? then [results[i].time] else []
  {
    assert results[..i + 1][..i] == results[..i];
  }

  lemma {:induction false} EachResultCounts(results: seq<SendResult>)
    ensures |Times(results)| + |SendErrors(results)| == |results|
  {
    if results != [] { EachResultCounts(results[..|results| - 1]); }
  }

  lemma AcceptedNext(stream: seq<Envelope>, i: nat)
    requires i < |stream|
    ensures Accepted(stream[..i + 1]) == Accepted(stream[..i]) + if FromApp(stream[i]) then [stream[i].message] else []
  {
    assert stream[..i + 1][..i] == stream[..i];
  }

  lemma NumbersNext(messages: seq<string>, i: nat)
    requires i < |messages|
    ensures Numbers(messages[..i + 1]) == Numbers(messages[..i]) + Number(messages[i])
  {
    assert messages[..i + 1][..i] == messages[..i];
  }

  function MissingEntry(time: string): string { "missing log entry: " + time }

  function MissingEntries(numbers: seq<nat>, times: map<nat, string>): (r: seq<string>)
    requires forall n :: n in numbers ==> n in times
    ensures |r| == |numbers|
  {
    seq(|numbers|, i requires 0 <= i < |numbers| => assert numbers[i] in numbers; MissingEntry(times[numbers[i]]))
  }

  /** Exactly the numbers below `written` have a time. */
  ghost predicate Timed(times: map<nat, string>, written: nat)
  {
    forall n: nat :: n in times <==> n < written
  }

  /** The earlier numbers keep their times, and the new ones follow them. */
  ghost predicate Recorded(now: map<nat, string>, before: map<nat, string>, first: nat, times: seq<string>)
  {
    && Timed(now, first + |times|)
    && (forall n :: n in before ==> n in now && now[n] == before[n])
    && (forall k :: 0 <= k < |times| ==> now[first + k] == times[k])
  }

  lemma RecordedNext(now: map<nat, string>, before: map<nat, string>, first: nat, times: seq<string>, time: string)
    requires Recorded(now, before, first, times) && Timed(before, first)
    ensures Recorded(now[first + |times| := time], before, first, times + [time])
  {
  }

  /** The error counts after some results. */
  function Accumulated(counts: map<string, nat>, results: seq<SendResult>): map<string, nat>
  {
    if results == [] then counts
    else
      var last := results[|results| - 1];
      var before := Accumulated(counts, results[..|results| - 1]);
      if last.SentAt? then before else Added(before, last.message)
  }

  lemma AccumulatedNext(counts: map<string, nat>, results: seq<SendResult>, i: nat)
    requires i < |results|
    ensures Accumulated(counts, results[..i + 1]) ==
            if results[i].SentAt? then Accumulated(counts, results[..i])
            else Added(Accumulated(counts, results[..i]), results[i].message)
  {
    assert results[..i + 1][..i] == results[..i];
  }

  lemma {:induction false} AccumulatedBag(counts: map<string, nat>, results: seq<SendResult>)
    requires Positive(counts)
    ensures Positive(Accumulated(counts, results))
    ensures Bag(Accumulated(counts, results)) == Bag(counts) + SendErrors(results)
  {
    if results != [] {
      var n := |results| - 1;
      AccumulatedBag(counts, results[..n]);
      if results[n].SendFailed? {
        AddedOnce(Accumulated(counts, results[..n]), results[n].message);
      }
    }
  }

  class Spammer {
    const prefix: string
    var errors: map<string, nat>
    var logMessages: seq<string>
    var logWritten: nat
    var logsWritten: map<nat, string>

    ghost predicate Valid()
      reads this
    {
      Positive(errors) && Timed(logsWritten, logWritten)
    }

    constructor (r: nat)
      ensures Valid() && prefix == Prefix(r)
      ensures logMessages == [] && logWritten == 0
      ensures errors == map[]
    {
      prefix, logMessages, logWritten, logsWritten, errors := Prefix(r), [], 0, map[], map[];
    }

    /** The sending loop, which requests `Sent(prefix, n)` for each of `numbers`: a number is used again after
        a failed request. */
    method SendLoop(results: seq<SendResult>) returns (numbers: seq<nat>)
      requires Valid()
      modifies this`logWritten, this`logsWritten, this`errors
      ensures Valid()
      ensures logWritten == old(logWritten) + |Times(results)|
      ensures Recorded(logsWritten, old(logsWritten), old(logWritten), Times(results))
      ensures Bag(errors) == old(Bag(errors)) + SendErrors(results)
      ensures numbers == Requested(old(logWritten), results)
    {
      numbers := [];
      ghost var first, times0, errors0 := logWritten, logsWritten, errors;
      ghost var times := [];
      for i := 0 to |results|
        invariant times == Times(results[..i]) && errors == Accumulated(errors0, results[..i])
        invariant logWritten == first + |times| && numbers == Requested(first, results[..i])
        invariant Recorded(logsWritten, times0, first, times)
      {
        ResultsNext(results, i);
        AccumulatedNext(errors0, results, i);
        RequestedNext(first, results, i);
        numbers := numbers + [logWritten];
        match results[i] {
          case SendFailed(message) => errors := Added(errors, message);
          case SentAt(time) =>
            RecordedNext(logsWritten, times0, first, times, time);
            times := times + [time];
            logsWritten := logsWritten[logWritten := time];
            logWritten := logWritten + 1;
        }
      }
      assert results[..|results|] == results;
      AccumulatedBag(errors0, results);
    }

    /** The receiving loop. */
    method ReceiveLoop(stream: seq<Envelope>)
      modifies this`logMessages
      ensures logMessages == old(logMessages) + Accepted(stream)
    {
      for i := 0 to |stream|
        invariant logMessages == old(logMessages) + Accepted(stream[..i])
      {
        AcceptedNext(stream, i);
        match stream[i] {
          case Log(source, out, message) =>
            if source == "APP/PROC/WEB" && out {
              logMessages := logMessages + [message];
            }
          case Nothing =>
          case NoLog =>
        }
      }
      assert stream[..|stream|] == stream;
    }

    method GetReceivedLogNumbers() returns (numbers: set<int>)
      ensures numbers == Numbers(logMessages)
    {
      numbers := {};
      for i := 0 to |logMessages|
        invariant numbers == Numbers(logMessages[..i])
      {
        NumbersNext(logMessages, i);
        if Contains(logMessages[i], "TEST") {
          continue;
        }
        var parts := Split(DropTimestamps(logMessages[i]), '-');
        if |parts| >= 3 {
          match Atoi(parts[2]) {
            case None =>
            case Some(n) => numbers := numbers + {n};
          }
        }
      }
      assert logMessages[..|logMessages|] == logMessages;
    }

    /** The send errors, if any, and the missing entries, if any. */
    method Check() returns (failed: Option<map<string, nat>>, missing: Option<map<string, nat>>)
      requires Valid()
      ensures failed == if Bag(errors) == multiset{} then None else Some(errors)
      ensures var numbers := Missing(logWritten, Numbers(logMessages));
              && (forall n :: n in numbers ==> n in logsWritten)
              && Reports(missing, MissingEntries(numbers, logsWritten))
    {
      var received := GetReceivedLogNumbers();
      var numbers := CollectMissing(logWritten, received);
      MissingExactly(logWritten, received);
      missing := ReportAll(MissingEntries(numbers, logsWritten));
      EmptyBag(errors);
      failed := if errors != map[] then Some(errors) else None;
    }
  }

  /** An error set with exactly these messages, or none for no messages. */
  ghost predicate Reports(report: Option<map<string, nat>>, entries: seq<string>)
  {
    && (report == None <==> entries == [])
    && (report.Some? ==> Bag(report.value) == multiset(entries))
  }

  method ReportAll(entries: seq<string>) returns (report: Option<map<string, nat>>)
    ensures Reports(report, entries)
  {
    var logMissing := new ErrorSet();
    for i := 0 to |entries|
      invariant fresh(logMissing) && logMissing.Valid()
      invariant logMissing.Errors() == multiset(entries[..i])
    {
      logMissing.AddError(entries[i]);
      assert entries[..i + 1] == entries[..i] + [entries[i]];
    }
    assert entries[..|entries|] == entries;
    assert |multiset(entries)| == |entries|;
    var any := logMissing.NonEmpty();
    report := if any then Some(logMissing.counts) else None;
  }

  method CollectMissing(written: nat, received: set<int>) returns (numbers: seq<nat>)
    ensures numbers == Missing(written, received)
  {
    numbers := [];
    for n := 0 to written
      invariant numbers == Missing(n, received)
    {
      if n !in received {
        numbers := numbers + [n];
      }
    }
  }

  // ---- end to end ----

  /** What arrives from the app: a line it printed for a number, or something else it printed. */
  datatype Arrival =
    | Printed(time: string, number: nat, end: string)
    | Other(text: string)

  function LineOf(r: nat, a: Arrival): string
  {
    match a
    case Printed(time, number, end) => Line(time, Sent(Prefix(r), number), end)
    case Other(text) => text
  }

  /** The lines for numbers can be read, and nothing else looks like one. */
  ghost predicate Readable(r: nat, a: Arrival)
  {
    match a
    case Printed(time, number, end) =>
      && '\n' !in time && number <= MAX_INT && (end == "" || end == "\n")
      && !Contains(Line(time, Sent(Prefix(r), number), end), "TEST")
    case Other(text) => ParseLog(text).None?
  }

  function Lines(r: nat, arrivals: seq<Arrival>): (lines: seq<string>)
    ensures |lines| == |arrivals|
  {
    if arrivals == [] then [] else Lines(r, arrivals[..|arrivals| - 1]) + [LineOf(r, arrivals[|arrivals| - 1])]
  }

  function NumberOf(a: Arrival): set<int> { if a.Printed? then {a.number} else {} }

  function ArrivedNumbers(arrivals: seq<Arrival>): set<int>
  {
    if arrivals == [] then {}
    else ArrivedNumbers(arrivals[..|arrivals| - 1]) + NumberOf(arrivals[|arrivals| - 1])
  }

  predicate Arrived(arrivals: seq<Arrival>, n: int) { exists a :: a in arrivals && a.Printed? && a.number == n }

  lemma {:induction false} ArrivedExactly(arrivals: seq<Arrival>)
    ensures forall n :: n in ArrivedNumbers(arrivals) <==> Arrived(arrivals, n)
  {
    if arrivals != [] {
      var before, last := arrivals[..|arrivals| - 1], arrivals[|arrivals| - 1];
      ArrivedExactly(before);
      assert arrivals == before + [last];
      forall n ensures Arrived(arrivals, n) <==> Arrived(before, n) || n in NumberOf(last) {
        if Arrived(before, n) {
          var a :| a in before && a.Printed? && a.number == n;
          assert a in arrivals;
        }
      }
    }
  }

  lemma ArrivalRecognised(r: nat, a: Arrival)
    requires Readable(r, a)
    ensures Number(LineOf(r, a)) == NumberOf(a)
  {
    if a.Printed? { LogRoundTrip(a.time, r, a.number, a.end); }
  }

  lemma NumbersAppend(messages: seq<string>, m: string)
    ensures Numbers(messages + [m]) == Numbers(messages) + Number(m)
  {
    assert (messages + [m])[..|messages|] == messages;
  }

  lemma {:induction false} LinesNext(r: nat, arrivals: seq<Arrival>)
    requires arrivals != [] && Readable(r, arrivals[|arrivals| - 1])
    ensures var n := |arrivals| - 1;
            Numbers(Lines(r, arrivals)) == Numbers(Lines(r, arrivals[..n])) + NumberOf(arrivals[n])
  {
    var before, a := arrivals[..|arrivals| - 1], arrivals[|arrivals| - 1];
    ArrivalRecognised(r, a);
    NumbersAppend(Lines(r, before), LineOf(r, a));
  }

  /** In any order and with repetitions, the arriving lines are recognised for exactly their numbers. */
  lemma {:induction false} ArrivalsRecognised(r: nat, arrivals: seq<Arrival>)
    requires forall a :: a in arrivals ==> Readable(r, a)
    ensures Numbers(Lines(r, arrivals)) == ArrivedNumbers(arrivals)
  {
    if arrivals != [] {
      ArrivalsRecognised(r, arrivals[..|arrivals| - 1]);
      LinesNext(r, arrivals);
    }
  }

  /** So Check reports exactly the sent numbers that did not arrive. */
  lemma MissingAreTheLost(r: nat, written: nat, arrivals: seq<Arrival>)
    requires forall a :: a in arrivals ==> Readable(r, a)
    ensures forall k: nat :: k in Missing(written, Numbers(Lines(r, arrivals))) <==>
              k < written && !Arrived(arrivals, k)
  {
    ArrivalsRecognised(r, arrivals);
    ArrivedExactly(arrivals);
    MissingExactly(written, Numbers(Lines(r, arrivals)));
  }

  /** The number after the last one written has been requested exactly if the last request failed. */
  lemma {:induction false} NextRequestedExactly(first: nat, results: seq<SendResult>)
    ensures first + |Times(results)| in Requested(first, results) <==>
            results != [] && results[|results| - 1].SendFailed?
  {
    if results != [] { RequestedWithin(first, results[..|results| - 1]); }
  }

  /** Each printed line is for a request that was made. */
  ghost predicate FromRequests(arrivals: seq<Arrival>, results: seq<SendResult>)
  {
    forall a :: a in arrivals && a.Printed? ==> a.number in Requested(0, results)
  }

  /** Nothing beyond the next number arrives. */
  lemma ArrivedWithin(results: seq<SendResult>, arrivals: seq<Arrival>, n: int)
    requires FromRequests(arrivals, results) && Arrived(arrivals, n)
    ensures 0 <= n <= |Times(results)| && n in Requested(0, results)
  {
    var a :| a in arrivals && a.Printed? && a.number == n;
    RequestedWithin(0, results);
  }

  lemma AllBelowExactly(received: set<int>, written: nat)
    requires forall n :: n in received ==> 0 <= n <= written
    ensures (forall n :: n in received ==> 0 <= n < written) <==> written !in received
  {
  }

  lemma {:induction false} NextArrivedOnlyAfterFailure(results: seq<SendResult>, arrivals: seq<Arrival>)
    requires FromRequests(arrivals, results) && Arrived(arrivals, |Times(results)|)
    ensures results != [] && results[|results| - 1].SendFailed?
  {
    ArrivedWithin(results, arrivals, |Times(results)|);
    NextRequestedExactly(0, results);
  }

  lemma CountOfArrived(written: nat, received: set<int>, arrivals: seq<Arrival>)
    requires received == ArrivedNumbers(arrivals) && forall n :: n in received ==> 0 <= n <= written
    ensures |Missing(written, received)| == written - |received| <==> !Arrived(arrivals, written)
  {
    MissingCount(written, received);
    AllBelowExactly(received, written);
    ArrivedExactly(arrivals);
  }

  /** The printed difference is what is missing, exactly unless the line of a last, failed request arrived. */
  lemma DifferenceExactly(r: nat, results: seq<SendResult>, arrivals: seq<Arrival>)
    requires forall a :: a in arrivals ==> Readable(r, a)
    requires FromRequests(arrivals, results)
    ensures var written, received := |Times(results)|, Numbers(Lines(r, arrivals));
            |Missing(written, received)| == written - |received| <==> !Arrived(arrivals, written)
    ensures Arrived(arrivals, |Times(results)|) ==> results != [] && results[|results| - 1].SendFailed?
  {
    ArrivalsRecognised(r, arrivals);
    ArrivedExactly(arrivals);
    forall n | n in ArrivedNumbers(arrivals) ensures 0 <= n <= |Times(results)| {
      ArrivedWithin(results, arrivals, n);
    }
    CountOfArrived(|Times(results)|, ArrivedNumbers(arrivals), arrivals);
    if Arrived(arrivals, |Times(results)|) { NextArrivedOnlyAfterFailure(results, arrivals); }
  }

  /** The times of the numbers that did not arrive. */
  function LostEntries(results: seq<SendResult>, received: set<int>): (r: seq<string>)
    ensures |r| == |Missing(|Times(results)|, received)|
  {
    var numbers := Missing(|Times(results)|, received);
    MissingExactly(|Times(results)|, received);
    seq(|numbers|, i requires 0 <= i < |numbers| =>
                     assert numbers[i] in numbers; MissingEntry(Times(results)[numbers[i]]))
  }

  lemma LostEntriesAre(results: seq<SendResult>, received: set<int>, times: map<nat, string>)
    requires Recorded(times, map[], 0, Times(results))
    ensures forall n :: n in Missing(|Times(results)|, received) ==> n in times
    ensures MissingEntries(Missing(|Times(results)|, received), times) == LostEntries(results, received)
  {
    MissingExactly(|Times(results)|, received);
  }

  method SendAndReceive(r: nat, results: seq<SendResult>, stream: seq<Envelope>) returns (s: Spammer)
    ensures fresh(s) && s.Valid() && s.logWritten == |Times(results)|
    ensures Recorded(s.logsWritten, map[], 0, Times(results))
    ensures Bag(s.errors) == SendErrors(results) && s.logMessages == Accepted(stream)
  {
    s := new Spammer(r);
    var numbers := s.SendLoop(results);
    s.ReceiveLoop(stream);
  }

  /** A whole run of the spammer: new, send, receive what arrives, check. The send errors are nil iff every request
      succeeded; the missing entries are those of exactly the written numbers that did not arrive, nil iff all did. */
  method SendReceiveCheck(r: nat, results: seq<SendResult>, stream: seq<Envelope>, ghost arrivals: seq<Arrival>)
    returns (written: nat, failed: Option<map<string, nat>>, missing: Option<map<string, nat>>)
    requires Accepted(stream) == Lines(r, arrivals) && forall a :: a in arrivals ==> Readable(r, a)
    ensures written == |Times(results)|
    ensures failed.None? <==> forall i :: 0 <= i < |results| ==> results[i].SentAt?
    ensures failed.Some? ==> Bag(failed.value) == SendErrors(results)
    ensures Reports(missing, LostEntries(results, ArrivedNumbers(arrivals)))
    ensures missing.None? <==> forall n :: 0 <= n < written ==> Arrived(arrivals, n)
  {
    var s := SendAndReceive(r, results, stream);
    ArrivalsRecognised(r, arrivals);
    LostEntriesAre(results, ArrivedNumbers(arrivals), s.logsWritten);
    written := s.logWritten;
    failed, missing := s.Check();
    NoSendErrors(results);
    NothingLost(results, arrivals);
  }

  lemma {:induction false} NoSendErrors(results: seq<SendResult>)
    ensures SendErrors(results) == multiset{} <==> forall i :: 0 <= i < |results| ==> results[i].SentAt?
  {
    if results != [] {
      var n := |results| - 1;
      NoSendErrors(results[..n]);
      assert forall i :: 0 <= i < n ==> results[..n][i] == results[i];
      if results[n].SendFailed? { assert results[n].message in SendErrors(results); }
    }
  }

  lemma NothingLost(results: seq<SendResult>, arrivals: seq<Arrival>)
    ensures LostEntries(results, ArrivedNumbers(arrivals)) == [] <==>
            forall n :: 0 <= n < |Times(results)| ==> Arrived(arrivals, n)
  {
    var received := ArrivedNumbers(arrivals);
    var numbers := Missing(|Times(results)|, received);
    ArrivedExactly(arrivals);
    MissingExactly(|Times(results)|, received);
    if numbers != [] { assert numbers[0] in numbers; }
  }
}
