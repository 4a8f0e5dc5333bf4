/** The multiset of error messages the acceptance tests keep: acceptance-tests/testing/helpers/error_set.go. */
module ErrorSets {

  /** Messages with their counts, as a multiset. */
  ghost function Bag(counts: map<string, nat>): (b: multiset<string>)
    ensures forall x :: b[x] == if x in counts then counts[x] else 0
    decreases counts.Keys
  {
    if counts == map[] then multiset{}
    else
      var k :| k in counts;
      Bag(counts - {k})[k := counts[k]]
  }

  lemma BagWithout(counts: map<string, nat>, k: string)
    requires k in counts
    ensures Bag(counts) == Bag(counts - {k})[k := counts[k]]
    ensures |Bag(counts)| == |Bag(counts - {k})| + counts[k]
  {
  }

  /** A message is a key only if it occurred. */
  ghost predicate Positive(counts: map<string, nat>)
  {
    forall k :: k in counts ==> counts[k] > 0
  }

  function Added(counts: map<string, nat>, message: string): map<string, nat>
  {
    counts[message := (if message in counts then counts[message] else 0) + 1]
  }

  /** An error that is not an error set counts once more. */
  lemma AddedOnce(counts: map<string, nat>, message: string)
    ensures Bag(Added(counts, message)) == Bag(counts) + multiset{message}
    ensures Positive(counts) ==> Positive(Added(counts, message))
  {
  }

  lemma EmptyBag(counts: map<string, nat>)
    requires Positive(counts)
    ensures counts == map[] <==> Bag(counts) == multiset{}
  {
    if k :| k in counts {
      assert Bag(counts)[k] > 0;
    }
  }

  class ErrorSet {
    var counts: map<string, nat>

    ghost predicate Valid()
      reads this
    {
      Positive(counts)
    }

    ghost function Errors(): multiset<string>
      reads this
    {
      Bag(counts)
    }

    constructor ()
      ensures Valid() && Errors() == multiset{}
    {
      counts := map[];
    }

    method AddError(message: string)
      requires Valid()
      modifies this
      ensures Valid() && Errors() == old(Errors()) + multiset{message}
    {
      AddedOnce(counts, message);
      counts := Added(counts, message);
    }

    /** An error set is merged count by count; it may be this very set. */
    method AddSet(other: ErrorSet)
      requires Valid() && other.Valid()
      modifies this
      ensures Valid() && Errors() == old(Errors()) + old(other.Errors())
    {
      var keys := other.counts.Keys;
      while keys != {}
        invariant keys <= old(other.counts).Keys
        invariant forall k :: k in keys ==> k in other.counts && other.counts[k] == old(other.counts)[k]
        invariant other != this ==> other.counts == old(other.counts)
        invariant counts.Keys == old(counts).Keys + (old(other.counts).Keys - keys)
        invariant forall k :: k in counts ==>
                    counts[k] == (if k in old(counts) then old(counts)[k] else 0) +
                                 (if k in old(other.counts) && k !in keys then old(other.counts)[k] else 0)
        decreases keys
      {
        var k :| k in keys;
        counts := counts[k := (if k in counts then counts[k] else 0) + other.counts[k]];
        keys := keys - {k};
      }
    }

    method Total() returns (n: nat)
      ensures n == |Errors()|
    {
      n := 0;
      var rest := counts;
      while rest != map[]
        invariant n + |Bag(rest)| == |Bag(counts)|
        decreases rest.Keys
      {
        var k :| k in rest;
        BagWithout(rest, k);
        n := n + rest[k];
        rest := rest - {k};
      }
    }

    /** `len(errors) > 0`. */
    method NonEmpty() returns (b: bool)
      requires Valid()
      ensures b == (Errors() != multiset{})
    {
      EmptyBag(counts);
      b := counts != map[];
    }
  }

  /** Errors as they nest: a plain message, or a set that was filled with errors in turn. */
  datatype Nested = Plain(message: string) | Merged(errors: seq<Nested>)

  function Messages(e: Nested): seq<string>
  {
    match e
    case Plain(m) => [m]
    case Merged(es) => AllMessages(es)
  }

  function AllMessages(es: seq<Nested>): seq<string>
  {
    if es == [] then [] else AllMessages(es[..|es| - 1]) + Messages(es[|es| - 1])
  }

  lemma AllMessagesNext(es: seq<Nested>, i: nat)
    requires i < |es|
    ensures AllMessages(es[..i + 1]) == AllMessages(es[..i]) + Messages(es[i])
  {
    assert es[..i + 1][..i] == es[..i];
  }

  /** However deep the sets nest, each message ends up in the outermost one exactly as often as it was added. */
  method Collect(es: seq<Nested>) returns (all: ErrorSet)
    ensures all.Valid() && fresh(all)
    ensures all.Errors() == multiset(AllMessages(es))
    decreases es
  {
    all := new ErrorSet();
    for i := 0 to |es|
      invariant all.Valid() && fresh(all)
      invariant all.Errors() == multiset(AllMessages(es[..i]))
    {
      AllMessagesNext(es, i);
      match es[i] {
        case Plain(m) => all.AddError(m);
        case Merged(inner) =>
          var s := Collect(inner);
          all.AddSet(s);
      }
    }
    assert es[..|es|] == es;
  }

  /** Totals are conserved under nesting. */
  method CollectedTotal(es: seq<Nested>) returns (n: nat)
    ensures n == |AllMessages(es)|
  {
    var s := Collect(es);
    n := s.Total();
  }
}
