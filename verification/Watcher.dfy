/** The resuming watcher: acceptance-tests/testing/helpers/watcher.go. */
module Watcher {
  import opened Wrappers

  /** A change in etcd; modified indices start at 1. */
  datatype Event = Event(key: string, value: string, index: nat)

  predicate IsLog(log: seq<Event>)
  {
    && (forall k :: 0 <= k < |log| ==> log[k].index > 0)
    && (forall j, k :: 0 <= j < k < |log| ==> log[j].index < log[k].index)
  }

  /** The cache that replaying events builds. */
  function Replay(events: seq<Event>): map<string, string>
  {
    if events == [] then map[]
    else Replay(events[..|events| - 1])[events[|events| - 1].key := events[|events| - 1].value]
  }

  function LastIndex(events: seq<Event>): nat
  {
    if events == [] then 0 else events[|events| - 1].index
  }

  // ---- the fields and their methods ----

  class Watcher {
    var data: map<string, string>
    var lastModifiedIndex: nat
    var stopped: bool

    constructor ()
      ensures data == map[] && lastModifiedIndex == 0 && !stopped
    {
      data, lastModifiedIndex, stopped := map[], 0, false;
    }

    method AddData(key: string, value: string, modifiedIndex: nat)
      modifies this`data, this`lastModifiedIndex
      ensures data == old(data)[key := value] && lastModifiedIndex == modifiedIndex
    {
      data := data[key := value];
      lastModifiedIndex := modifiedIndex;
    }

    /** A copy, key by key. */
    method Data() returns (copy: map<string, string>)
      ensures copy == data
    {
      copy := map[];
      var keys := data.Keys;
      while keys != {}
        invariant keys <= data.Keys
        invariant copy.Keys == data.Keys - keys
        invariant forall k :: k in copy ==> copy[k] == data[k]
        decreases keys
      {
        var k :| k in keys;
        copy := copy[k := data[k]];
        keys := keys - {k};
      }
    }

    /** The listener of one connection: it applies what it receives until the channel is closed; an absent
        response or node is skipped. */
    method ListenForResponses(received: seq<Option<Event>>, ghost before: seq<Event>)
      requires data == Replay(before) && lastModifiedIndex == LastIndex(before)
      modifies this`data, this`lastModifiedIndex
      ensures data == Replay(before + Present(received))
      ensures lastModifiedIndex == LastIndex(before + Present(received))
    {
      assert before + Present(received[..0]) == before;
      for i := 0 to |received|
        invariant data == Replay(before + Present(received[..i]))
        invariant lastModifiedIndex == LastIndex(before + Present(received[..i]))
      {
        PresentNext(received, i);
        if received[i].Some? {
          var e := received[i].value;
          ReplayNext(before + Present(received[..i]), e);
          assert before + Present(received[..i + 1]) == before + Present(received[..i]) + [e];
          AddData(e.key, e.value, e.index);
        } else {
          assert Present(received[..i + 1]) == Present(received[..i]);
        }
      }
      assert received[..|received|] == received;
    }

    /** One connection: watch from the index after the last one applied, and apply at most `limit` events
        before it drops. */
    method WatchOnce(log: seq<Event>, limit: nat, ghost n: nat)
      requires IsLog(log) && n <= |log|
      requires data == Replay(log[..n]) && lastModifiedIndex == LastIndex(log[..n])
      modifies this`data, this`lastModifiedIndex
      ensures var m := if n + limit < |log| then n + limit else |log|;
              data == Replay(log[..m]) && lastModifiedIndex == LastIndex(log[..m])
    {
      var from := ServedFrom(log, lastModifiedIndex + 1);
      ServedFromResumes(log, n);
      var count := if limit < |from| then limit else |from|;
      Continued(log, n, count);
      ListenForResponses(AsReceived(from[..count]), log[..n]);
    }

    /** The cache replays what the connections have delivered of their last log. */
    ghost predicate UpTo(connections: seq<Connection>)
      reads this
    {
      var n, log := Delivered(connections), LastLog(connections);
      n <= |log| && data == Replay(log[..n]) && lastModifiedIndex == LastIndex(log[..n])
    }

    /** The loop around the connections, one after the other, over a log that grows meanwhile, until one ends
        without an error. */
    method Watch(connections: seq<Connection>)
      requires Growing(connections) && data == map[] && lastModifiedIndex == 0
      modifies this
      ensures UpTo(connections) && stopped
      ensures connections != [] && connections[|connections| - 1].limit >= |LastLog(connections)| ==>
                data == Replay(LastLog(connections)) && lastModifiedIndex == LastIndex(LastLog(connections))
    {
      for c := 0 to |connections|
        invariant UpTo(connections[..c])
      {
        ghost var n := Delivered(connections[..c]);
        var log := connections[c].log;
        LogGrows(connections, c, n);
        WatchOnce(log, connections[c].limit, n);
        DeliveredNext(connections, c);
      }
      assert connections[..|connections|] == connections;
      LastServedInFull(connections);
      stopped := true;
    }
  }

  /** The log that a connection serves from, and how many events it delivers before it drops. */
  datatype Connection = Connection(log: seq<Event>, limit: nat)

  predicate Growing(connections: seq<Connection>)
  {
    && (forall c :: 0 <= c < |connections| ==> IsLog(connections[c].log))
    && (forall c :: 0 < c < |connections| ==> connections[c - 1].log <= connections[c].log)
  }

  function LastLog(connections: seq<Connection>): seq<Event>
  {
    if connections == [] then [] else connections[|connections| - 1].log
  }

  lemma LogGrows(connections: seq<Connection>, c: nat, n: nat)
    requires Growing(connections) && c < |connections| && n <= |LastLog(connections[..c])|
    ensures IsLog(connections[c].log) && n <= |connections[c].log|
    ensures connections[c].log[..n] == LastLog(connections[..c])[..n]
  {
  }

  lemma DeliveredNext(connections: seq<Connection>, c: nat)
    requires c < |connections|
    ensures Delivered(connections[..c + 1]) ==
            Advance(|connections[c].log|, Delivered(connections[..c]), connections[c].limit)
    ensures LastLog(connections[..c + 1]) == connections[c].log
  {
    assert connections[..c + 1][..c] == connections[..c];
  }

  lemma ReplayNext(events: seq<Event>, e: Event)
    ensures Replay(events + [e]) == Replay(events)[e.key := e.value] && LastIndex(events + [e]) == e.index
  {
    assert (events + [e])[..|events|] == events;
  }

  /** The events in what was received. */
  function Present(received: seq<Option<Event>>): seq<Event>
  {
    if received == [] then []
    else Present(received[..|received| - 1]) +
         match received[|received| - 1]
         case None => []
         case Some(e) => [e]
  }

  lemma PresentNext(received: seq<Option<Event>>, i: nat)
    requires i < |received|
    ensures Present(received[..i + 1]) ==
            Present(received[..i]) + if received[i].Some? then [received[i].value] else []
  {
    assert received[..i + 1][..i] == received[..i];
  }

  function AsReceived(events: seq<Event>): (r: seq<Option<Event>>)
    ensures |r| == |events| && forall k :: 0 <= k < |events| ==> r[k] == Some(events[k])
  {
    seq(|events|, k requires 0 <= k < |events| => Some(events[k]))
  }

  lemma {:induction false} PresentAsReceived(events: seq<Event>)
    ensures Present(AsReceived(events)) == events
  {
    if events != [] {
      var n := |events| - 1;
      assert AsReceived(events)[..n] == AsReceived(events[..n]);
      PresentAsReceived(events[..n]);
      assert events[..n] + [events[n]] == events;
    }
  }

  /** The next events of the log after the first `n`. */
  lemma Continued(log: seq<Event>, n: nat, count: nat)
    requires n + count <= |log|
    ensures log[..n] + Present(AsReceived(log[n..][..count])) == log[..n + count]
  {
    PresentAsReceived(log[n..][..count]);
  }

  /** What the server has from an index on. */
  function ServedFrom(log: seq<Event>, index: nat): seq<Event>
  {
    if log == [] then []
    else if log[0].index >= index then log
    else ServedFrom(log[1..], index)
  }

  /** Watching from the index after the last applied event serves exactly what is missing. */
  lemma {:induction false} ServedFromResumes(log: seq<Event>, n: nat)
    requires IsLog(log) && n <= |log|
    ensures ServedFrom(log, LastIndex(log[..n]) + 1) == log[n..]
  {
    if n > 0 {
      assert log[..n][n - 1] == log[n - 1];
      if n == 1 {
        assert log[1..] == [] || log[1].index > log[0].index;
      } else {
        assert log[..n][1..] == log[1..][..n - 1];
        assert LastIndex(log[..n]) == LastIndex(log[1..][..n - 1]);
        ServedFromResumes(log[1..], n - 1);
      }
    }
  }

  /** Each connection delivers as many more events as it lasts for, or all that its log still has. */
  lemma DeliveredExactly(connections: seq<Connection>)
    requires Growing(connections) && connections != []
    ensures var k := |connections| - 1;
            var before, log, limit := Delivered(connections[..k]), connections[k].log, connections[k].limit;
            && before <= Delivered(connections) <= |log| == |LastLog(connections)|
            && (before + limit < |log| ==> Delivered(connections) == before + limit)
            && (before + limit >= |log| ==> Delivered(connections) == |log|)
  {
    DeliveredWithin(connections[..|connections| - 1]);
  }

  /** A last connection that lasts for the whole log delivers all of it. */
  lemma LastServedInFull(connections: seq<Connection>)
    requires Growing(connections)
    ensures connections != [] && connections[|connections| - 1].limit >= |LastLog(connections)| ==>
              Delivered(connections) == |LastLog(connections)|
    ensures LastLog(connections)[..|LastLog(connections)|] == LastLog(connections)
  {
    if connections != [] { DeliveredExactly(connections); }
  }

  lemma {:induction false} DeliveredWithin(connections: seq<Connection>)
    requires Growing(connections)
    ensures Delivered(connections) <= |LastLog(connections)|
  {
    if connections != [] { DeliveredWithin(connections[..|connections| - 1]); }
  }

  /** A key holds the value of the last event about it, and only keys of events are held. */
  lemma {:induction false} ReplayExactly(events: seq<Event>, key: string)
    ensures key in Replay(events) <==> exists e :: e in events && e.key == key
    ensures key in Replay(events) ==>
              exists k :: 0 <= k < |events| && events[k].key == key && events[k].value == Replay(events)[key] &&
                          forall j :: k < j < |events| ==> events[j].key != key
  {
    if events != [] {
      var before, last := events[..|events| - 1], events[|events| - 1];
      ReplayExactly(before, key);
      assert events == before + [last];
      if last.key != key && key in Replay(events) {
        var k :| 0 <= k < |before| && before[k].key == key && before[k].value == Replay(before)[key] &&
                 forall j :: k < j < |before| ==> before[j].key != key;
        assert events[k] == before[k] && forall j :: k < j < |before| ==> events[j] == before[j];
      } else if last.key == key {
        assert events[|before|] == last;
      }
    }
  }

  function Advance(available: nat, n: nat, limit: nat): nat
  {
    if n + limit < available then n + limit else if n < available then available else n
  }

  /** How many events the connections deliver in all. */
  function Delivered(connections: seq<Connection>): nat
  {
    if connections == [] then 0
    else
      var last := connections[|connections| - 1];
      Advance(|last.log|, Delivered(connections[..|connections| - 1]), last.limit)
  }
}
