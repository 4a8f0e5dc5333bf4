/** The spammer that writes keys all through an upgrade: acceptance-tests/testing/helpers/spammer.go. */
module KeySpammer {
  import opened Text
  import opened ErrorSets

  datatype SetResult = Stored | SetFailed(message: string)
  datatype GetResult = Found(value: string) | GetFailed(message: string)

  datatype Verdict = Fine | NothingWritten | Failures(errors: map<string, nat>)

  function Key(prefix: string, i: nat): string { prefix + "-some-key-" + Decimal(i) }

  function Value(prefix: string, i: nat): string { prefix + "-some-value-" + Decimal(i) }

  lemma KeyInjective(prefix: string, i: nat, j: nat)
    requires Key(prefix, i) == Key(prefix, j)
    ensures i == j
  {
    SameFront(prefix + "-some-key-", prefix + "-some-key-", Decimal(i), Decimal(j));
    DecimalInjective(i, j);
  }

  lemma ValueInjective(prefix: string, i: nat, j: nat)
    requires Value(prefix, i) == Value(prefix, j)
    ensures i == j
  {
    SameFront(prefix + "-some-value-", prefix + "-some-value-", Decimal(i), Decimal(j));
    DecimalInjective(i, j);
  }

  /** `strings.TrimPrefix`. */
  function TrimPrefix(s: string, prefix: string): string
  {
    if prefix <= s then s[|prefix|..] else s
  }

  /** What the error of an unreachable test consumer contains. */
  function RefusedMessage(address: string): string
  {
    "dial tcp " + TrimPrefix(address, "http://") + ": getsockopt: connection refused"
  }

  predicate Refused(r: SetResult, refused: string) { r.SetFailed? && Contains(r.message, refused) }

  /** A write is refused exactly if its error holds the text for the address without its "http://". */
  lemma RefusedExactly(host: string, r: SetResult)
    ensures Refused(r, RefusedMessage("http://" + host)) <==>
            exists a, b :: r == SetFailed(a + ("dial tcp " + host + ": getsockopt: connection refused") + b)
    ensures !("http://" <= host) ==> RefusedMessage(host) == RefusedMessage("http://" + host)
  {
    var text := "dial tcp " + host + ": getsockopt: connection refused";
    var address := "http://" + host;
    assert address[|"http://"|..] == host;
    if r.SetFailed? {
      ContainsExactly(r.message, text);
    }
  }

  /** The writes that count: all but the ones that never reached the test consumer. */
  function Counted(results: seq<SetResult>, refused: string): seq<SetResult>
  {
    if results == [] then []
    else
      var last := results[|results| - 1];
      Counted(results[..|results| - 1], refused) + if Refused(last, refused) then [] else [last]
  }

  lemma {:induction false} CountedExactly(results: seq<SetResult>, refused: string)
    ensures forall r :: r in Counted(results, refused) <==> r in results && !Refused(r, refused)
  {
    if results != [] {
      CountedExactly(results[..|results| - 1], refused);
      assert results == results[..|results| - 1] + [results[|results| - 1]];
    }
  }

  /** The counted writes keep their order. */
  lemma {:induction false} CountedInOrder(a: seq<SetResult>, b: seq<SetResult>, r: SetResult, refused: string)
    ensures Counted(a + b, refused) == Counted(a, refused) + Counted(b, refused)
    ensures Counted([], refused) == [] && Counted([r], refused) == if Refused(r, refused) then [] else [r]
  {
    assert Counted([r], refused) == Counted([], refused) + if Refused(r, refused) then [] else [r];
    if b == [] {
      assert a + b == a;
    } else {
      assert (a + b)[..|a + b| - 1] == a + b[..|b| - 1];
      CountedInOrder(a, b[..|b| - 1], r, refused);
    }
  }

  /** What the counted writes leave behind: the i-th one under the i-th key... */
  function Kept(prefix: string, counted: seq<SetResult>): map<string, string>
  {
    if counted == [] then map[]
    else
      var n := |counted| - 1;
      var before := Kept(prefix, counted[..n]);
      if counted[n].Stored? then before[Key(prefix, n) := Value(prefix, n)] else before
  }

  /** ...or as one error. */
  function Errors(counted: seq<SetResult>): multiset<string>
  {
    if counted == [] then multiset{}
    else
      var n := |counted| - 1;
      Errors(counted[..n]) + if counted[n].Stored? then multiset{} else multiset{counted[n].message}
  }

  /** Each failed one is its own message, once. */
  lemma {:induction false} ErrorsExactly(a: seq<SetResult>, b: seq<SetResult>, message: string)
    ensures Errors(a + b) == Errors(a) + Errors(b)
    ensures Errors([]) == Errors([Stored]) == multiset{} && Errors([SetFailed(message)]) == multiset{message}
  {
    if b == [] {
      assert a + b == a;
    } else {
      assert (a + b)[..|a + b| - 1] == a + b[..|b| - 1];
      ErrorsExactly(a, b[..|b| - 1], message);
    }
  }

  /** Each index below the number of counted writes is stored with its own value or is an error; nothing
      else is stored. */
  lemma {:induction false} KeptExactly(prefix: string, counted: seq<SetResult>)
    ensures forall i :: 0 <= i < |counted| ==> (Key(prefix, i) in Kept(prefix, counted) <==> counted[i].Stored?)
    ensures forall i :: 0 <= i < |counted| && counted[i].Stored? ==>
                          Kept(prefix, counted)[Key(prefix, i)] == Value(prefix, i)
    ensures forall k :: k in Kept(prefix, counted) ==> exists i :: 0 <= i < |counted| && k == Key(prefix, i)
  {
    if counted != [] {
      var n := |counted| - 1;
      KeptExactly(prefix, counted[..n]);
      forall i | 0 <= i < n ensures Key(prefix, i) != Key(prefix, n) {
        if Key(prefix, i) == Key(prefix, n) { KeyInjective(prefix, i, n); }
      }
      forall i | 0 <= i < n ensures counted[..n][i] == counted[i] {}
    }
  }

  /** Conservation: every counted write is one key or one error. */
  lemma {:induction false} KeptConserves(prefix: string, counted: seq<SetResult>)
    ensures |Kept(prefix, counted)| + |Errors(counted)| == |counted|
  {
    if counted != [] {
      var n := |counted| - 1;
      KeptConserves(prefix, counted[..n]);
      KeptExactly(prefix, counted[..n]);
      forall i | 0 <= i < n ensures Key(prefix, i) != Key(prefix, n) {
        if Key(prefix, i) == Key(prefix, n) { KeyInjective(prefix, i, n); }
      }
    }
  }

  lemma {:induction false} NoErrorsExactly(counted: seq<SetResult>)
    ensures |Errors(counted)| == 0 <==> forall i :: 0 <= i < |counted| ==> counted[i].Stored?
  {
    if counted != [] {
      var n := |counted| - 1;
      NoErrorsExactly(counted[..n]);
      assert forall i :: 0 <= i < n ==> counted[..n][i] == counted[i];
    }
  }

  class Spammer {
    const prefix: string
    const refused: string
    const errors: ErrorSet
    var store: map<string, string>
    var keyWriteAttempts: nat

    constructor (address: string, prefix: string)
      ensures this.prefix == prefix && refused == RefusedMessage(address)
      ensures store == map[] && keyWriteAttempts == 0
      ensures fresh(errors) && errors.Valid() && errors.Errors() == multiset{}
    {
      this.prefix, refused, store, keyWriteAttempts := prefix, RefusedMessage(address), map[], 0;
      errors := new ErrorSet();
    }

    method AddKVToStore(key: string, value: string)
      modifies this`store
      ensures store == old(store)[key := value]
    {
      store := store[key := value];
    }

    /** One write; a refused one does not count as an attempt. */
    method SpamOnce(before: nat, result: SetResult) returns (attempts: nat)
      requires errors.Valid()
      modifies this`store, errors
      ensures errors.Valid()
      ensures attempts == if Refused(result, refused) then before else before + 1
      ensures store == if result.Stored? then old(store)[Key(prefix, before) := Value(prefix, before)] else old(store)
      ensures errors.Errors() == old(errors.Errors()) +
                                 if result.Stored? || Refused(result, refused) then multiset{}
                                 else multiset{result.message}
    {
      attempts := before + 1;
      var key := Key(prefix, attempts - 1);
      var value := Value(prefix, attempts - 1);
      match result {
        case SetFailed(message) =>
          if Contains(message, refused) {
            attempts := attempts - 1;
          } else {
            errors.AddError(message);
          }
        case Stored =>
          AddKVToStore(key, value);
      }
    }

    /** The loop until Stop: one Set after the other, answered with `results`. */
    method SpamLoop(results: seq<SetResult>) returns (attempts: nat)
      requires errors.Valid()
      modifies this`store, errors
      ensures errors.Valid()
      ensures attempts == |Counted(results, refused)|
      ensures store == old(store) + Kept(prefix, Counted(results, refused))
      ensures errors.Errors() == old(errors.Errors()) + Errors(Counted(results, refused))
    {
      attempts := 0;
      ghost var counted, store0, errors0 := [], store, errors.Errors();
      for i := 0 to |results|
        invariant errors.Valid()
        invariant counted == Counted(results[..i], refused) && attempts == |counted|
        invariant store == store0 + Kept(prefix, counted)
        invariant errors.Errors() == errors0 + Errors(counted)
      {
        CountedNext(results, i, refused);
        OutcomeNext(prefix, counted, results[i], store0, errors0);
        attempts := SpamOnce(attempts, results[i]);
        if !Refused(results[i], refused) {
          counted := counted + [results[i]];
        }
      }
      assert results[..|results|] == results;
    }

    /** The attempts are published when the loop has stopped. */
    method Spam(results: seq<SetResult>)
      requires errors.Valid()
      modifies this, errors
      ensures errors.Valid()
      ensures keyWriteAttempts == |Counted(results, refused)|
      ensures store == old(store) + Kept(prefix, Counted(results, refused))
      ensures errors.Errors() == old(errors.Errors()) + Errors(Counted(results, refused))
    {
      var attempts := SpamLoop(results);
      keyWriteAttempts := attempts;
    }

    method CheckKey(k: string, reply: GetResult) returns (ok: bool)
      requires errors.Valid() && k in store
      modifies errors
      ensures errors.Valid()
      ensures ok == (reply == Found(store[k]))
      ensures old(errors.Errors()) <= errors.Errors()
      ensures |errors.Errors()| == |old(errors.Errors())| + if ok then 0 else 1
      ensures reply.GetFailed? ==> errors.Errors() == old(errors.Errors()) + multiset{reply.message}
    {
      ok := false;
      match reply {
        case GetFailed(message) =>
          errors.AddError(message);
        case Found(value) =>
          if store[k] != value {
            errors.AddError("value for key \"" + k + "\" does not match: expected \"" + store[k] + "\", got \"" +
                            value + "\"");
          } else {
            ok := true;
          }
      }
    }

    method CheckKeys(get: string -> GetResult)
      requires errors.Valid()
      modifies errors
      ensures errors.Valid()
      ensures old(errors.Errors()) <= errors.Errors()
      ensures |errors.Errors()| == |old(errors.Errors())| + |Unread(store, get)|
    {
      var rest := store;
      ghost var errors0 := errors.Errors();
      while rest != map[]
        invariant errors.Valid()
        invariant forall k :: k in rest ==> k in store && rest[k] == store[k]
        invariant errors0 <= errors.Errors()
        invariant |errors.Errors()| + |Unread(rest, get)| == |errors0| + |Unread(store, get)|
        decreases rest.Keys
      {
        var k :| k in rest;
        UnreadWithout(rest, get, k);
        var ok := CheckKey(k, get(k));
        rest := rest - {k};
      }
    }

    /** Read every stored key back. */
    method Check(get: string -> GetResult) returns (verdict: Verdict)
      requires errors.Valid()
      modifies errors
      ensures errors.Valid()
      ensures keyWriteAttempts == 0 ==> verdict == NothingWritten && errors.Errors() == old(errors.Errors())
      ensures keyWriteAttempts > 0 ==>
                && old(errors.Errors()) <= errors.Errors()
                && |errors.Errors()| == |old(errors.Errors())| + |Unread(store, get)|
                && verdict == if errors.Errors() == multiset{} then Fine else Failures(errors.counts)
      ensures verdict == Fine <==>
                keyWriteAttempts > 0 && |old(errors.Errors())| == 0 && |Unread(store, get)| == 0
    {
      if keyWriteAttempts == 0 {
        return NothingWritten;
      }
      CheckKeys(get);
      var failed := errors.NonEmpty();
      verdict := if failed then Failures(errors.counts) else Fine;
    }
  }

  /** The keys that do not read back. */
  function Unread(store: map<string, string>, get: string -> GetResult): (keys: set<string>)
    ensures keys <= store.Keys
    ensures |keys| == 0 <==> forall k :: k in store ==> get(k) == Found(store[k])
  {
    var keys := set k | k in store && get(k) != Found(store[k]);
    assert forall k :: k in store && get(k) != Found(store[k]) ==> k in keys;
    keys
  }

  lemma UnreadWithout(store: map<string, string>, get: string -> GetResult, k: string)
    requires k in store
    ensures |Unread(store, get)| == |Unread(store - {k}, get)| + if get(k) == Found(store[k]) then 0 else 1
  {
    assert Unread(store, get) == Unread(store - {k}, get) + if get(k) == Found(store[k]) then {} else {k};
  }

  lemma CountedNext(results: seq<SetResult>, i: nat, refused: string)
    requires i < |results|
    ensures Counted(results[..i + 1], refused) ==
            Counted(results[..i], refused) + if Refused(results[i], refused) then [] else [results[i]]
  {
    assert results[..i + 1][..i] == results[..i];
  }

  lemma OutcomeNext(prefix: string, counted: seq<SetResult>, r: SetResult, base: map<string, string>,
                    errors: multiset<string>)
    ensures errors + Errors(counted + [r]) ==
            errors + Errors(counted) + if r.Stored? then multiset{} else multiset{r.message}
    ensures base + Kept(prefix, counted + [r]) ==
            if r.Stored? then (base + Kept(prefix, counted))[Key(prefix, |counted|) := Value(prefix, |counted|)]
            else base + Kept(prefix, counted)
  {
    assert (counted + [r])[..|counted|] == counted;
  }

  /** Every counted write was stored and reads back as written. */
  predicate AllWell(prefix: string, counted: seq<SetResult>, get: string -> GetResult)
  {
    forall i :: 0 <= i < |counted| ==> counted[i].Stored? && get(Key(prefix, i)) == Found(Value(prefix, i))
  }

  /** What Check looks at tells exactly whether all is well with every counted write. */
  lemma AllWellExactly(prefix: string, counted: seq<SetResult>, get: string -> GetResult)
    ensures |Errors(counted)| == 0 && |Unread(Kept(prefix, counted), get)| == 0 <==> AllWell(prefix, counted, get)
  {
    var kept := Kept(prefix, counted);
    KeptExactly(prefix, counted);
    NoErrorsExactly(counted);
    if forall k :: k in kept ==> get(k) == Found(kept[k]) {
      forall i | 0 <= i < |counted| && counted[i].Stored? ensures get(Key(prefix, i)) == Found(Value(prefix, i)) {
        assert Key(prefix, i) in kept;
      }
    }
  }

  method NewAndSpam(address: string, prefix: string, results: seq<SetResult>) returns (s: Spammer)
    ensures fresh(s) && fresh(s.errors) && s.errors.Valid()
    ensures var counted := Counted(results, RefusedMessage(address));
            && s.keyWriteAttempts == |counted|
            && s.store == Kept(prefix, counted)
            && |s.errors.Errors()| == |Errors(counted)|
  {
    s := new Spammer(address, prefix);
    s.Spam(results);
    assert map[] + Kept(prefix, Counted(results, s.refused)) == Kept(prefix, Counted(results, s.refused));
  }

  /** A whole run of the spammer: new, spam, stop, check. */
  method SpamThenCheck(address: string, prefix: string, results: seq<SetResult>, get: string -> GetResult)
    returns (stored: nat, errors: nat, attempts: nat, fine: bool)
    ensures attempts == |Counted(results, RefusedMessage(address))|
    ensures stored + errors == attempts
    ensures fine <==> attempts > 0 && AllWell(prefix, Counted(results, RefusedMessage(address)), get)
  {
    var s := NewAndSpam(address, prefix, results);
    KeptConserves(prefix, Counted(results, RefusedMessage(address)));
    stored, attempts := |s.store|, s.keyWriteAttempts;
    errors := s.errors.Total();
    var verdict := s.Check(get);
    fine := verdict == Fine;
    AllWellExactly(prefix, Counted(results, RefusedMessage(address)), get);
  }
}
