/** The checker that deploys a syslog drain over and over and tolerates some errors:
    acceptance-tests/cf-tls-upgrade/syslogchecker/checker.go. */
module SyslogChecker {
  import opened Wrappers
  import opened ErrorSets

  const MAX_ERRS_PER_ITERATION := 2.0
  const TOTAL_ERROR_THRESHOLD := 0.2

  /** How one iteration goes: the error of the deployment, if any, and the output of each cleanup command
      that failed. */
  datatype Iteration = Iteration(
    deploy: Option<string>,
    unbind: Option<string>,
    deleteService: Option<string>,
    delete: Option<string>)

  function Single(what: string, output: Option<string>): (b: multiset<string>)
    ensures |b| == if output.Some? then 1 else 0
  {
    match output
    case None => multiset{}
    case Some(text) => multiset{what + text}
  }

  const UNBIND := "could not unbind the logger from the application: "
  const DELETE_SERVICE := "could not delete the service: "
  const DELETE_APP := "could not delete the syslog drainer app: "

  function CleanupErrors(it: Iteration): multiset<string>
  {
    Single(UNBIND, it.unbind) + Single(DELETE_SERVICE, it.deleteService) + Single(DELETE_APP, it.delete)
  }

  function One(failed: Option<string>): nat { if failed.Some? then 1 else 0 }

  /** Of the cleanup, one error per command that failed, with that command's text and output. */
  lemma CleanupErrorsExactly(it: Iteration)
    ensures |CleanupErrors(it)| == One(it.unbind) + One(it.deleteService) + One(it.delete)
    ensures it.unbind.Some? ==>
              "could not unbind the logger from the application: " + it.unbind.value in CleanupErrors(it)
    ensures it.deleteService.Some? ==> "could not delete the service: " + it.deleteService.value in CleanupErrors(it)
    ensures it.delete.Some? ==> "could not delete the syslog drainer app: " + it.delete.value in CleanupErrors(it)
  {
    var unbind, service, app :=
      Single(UNBIND, it.unbind), Single(DELETE_SERVICE, it.deleteService), Single(DELETE_APP, it.delete);
    assert CleanupErrors(it) == unbind + service + app;
    assert it.unbind.Some? ==> UNBIND + it.unbind.value in unbind;
    assert it.deleteService.Some? ==> DELETE_SERVICE + it.deleteService.value in service;
    assert it.delete.Some? ==> DELETE_APP + it.delete.value in app;
  }

  function DeployErrors(it: Iteration): (b: multiset<string>)
    ensures |b| == if it.deploy.Some? then 1 else 0
  {
    match it.deploy
    case None => multiset{}
    case Some(message) => multiset{message}
  }

  function AllErrors(its: seq<Iteration>): multiset<string>
  {
    if its == [] then multiset{}
    else
      var n := |its| - 1;
      AllErrors(its[..n]) + (DeployErrors(its[n]) + CleanupErrors(its[n]))
  }

  lemma AllErrorsNext(its: seq<Iteration>, i: nat, before: multiset<string>)
    requires i < |its|
    ensures before + AllErrors(its[..i + 1]) ==
            before + AllErrors(its[..i]) + DeployErrors(its[i]) + CleanupErrors(its[i])
  {
    assert its[..i + 1][..i] == its[..i];
  }

  predicate FailsThroughout(it: Iteration)
  {
    it.deploy.Some? && it.unbind.Some? && it.deleteService.Some? && it.delete.Some?
  }

  predicate AllFail(its: seq<Iteration>)
  {
    its == [] || (AllFail(its[..|its| - 1]) && FailsThroughout(its[|its| - 1]))
  }

  function IterationErrors(it: Iteration): nat { |DeployErrors(it)| + |CleanupErrors(it)| }

  lemma IterationAtMostFour(it: Iteration)
    ensures IterationErrors(it) <= 4
    ensures IterationErrors(it) == 4 <==> FailsThroughout(it)
  {
    assert |CleanupErrors(it)| == |Single(UNBIND, it.unbind)| + |Single(DELETE_SERVICE, it.deleteService)| +
                                  |Single(DELETE_APP, it.delete)|;
  }

  lemma {:induction false} AllErrorsLast(its: seq<Iteration>)
    requires its != []
    ensures |AllErrors(its)| == |AllErrors(its[..|its| - 1])| + IterationErrors(its[|its| - 1])
  {
  }

  /** The deployments and cleanup commands that failed. */
  function FailedCalls(its: seq<Iteration>): nat
  {
    if its == [] then 0
    else
      var it := its[0];
      One(it.deploy) + One(it.unbind) + One(it.deleteService) + One(it.delete) + FailedCalls(its[1..])
  }

  lemma {:induction false} FailedCallsConcat(a: seq<Iteration>, b: seq<Iteration>)
    ensures FailedCalls(a + b) == FailedCalls(a) + FailedCalls(b)
  {
    if a == [] {
      assert a + b == b;
    } else {
      assert (a + b)[1..] == a[1..] + b;
      FailedCallsConcat(a[1..], b);
    }
  }

  lemma FailedInOne(it: Iteration)
    ensures FailedCalls([it]) == IterationErrors(it)
  {
    CleanupErrorsExactly(it);
    assert FailedCalls([it][1..]) == 0;
  }

  /** Each of them is one error. */
  lemma {:induction false} FailedCallsCount(its: seq<Iteration>)
    ensures |AllErrors(its)| == FailedCalls(its)
  {
    if its != [] {
      var before, it := its[..|its| - 1], its[|its| - 1];
      FailedCallsCount(before);
      FailedCallsConcat(before, [it]);
      assert before + [it] == its;
      AllErrorsLast(its);
      FailedInOne(it);
    }
  }

  /** An iteration can add four errors, twice what the percentage is computed with. */
  lemma {:induction false} AtMostFour(its: seq<Iteration>)
    ensures |AllErrors(its)| <= 4 * |its|
    ensures |AllErrors(its)| == 4 * |its| <==> AllFail(its)
  {
    if its != [] {
      var n := |its| - 1;
      AtMostFour(its[..n]);
      AllErrorsLast(its);
      IterationAtMostFour(its[n]);
    }
  }

  // ---- the verdict ----

  /** A float quotient, with the two results that are not numbers. */
  datatype Percent = NotANumber | Infinite | Finite(value: real)

  function ErrPercent(errors: nat, iterations: nat): Percent
  {
    if iterations > 0 then Finite(errors as real / (MAX_ERRS_PER_ITERATION * iterations as real))
    else if errors > 0 then Infinite
    else NotANumber
  }

  /** The percentage is of two errors per iteration. */
  lemma ErrPercentExactly(errors: nat, iterations: nat)
    ensures iterations > 0 ==>
              var p := ErrPercent(errors, iterations);
              p.Finite? && p.value * (2 * iterations) as real == errors as real
    ensures iterations == 0 ==> ErrPercent(errors, 0) == if errors > 0 then Infinite else NotANumber
  {
    if iterations > 0 {
      var d := (2 * iterations) as real;
      assert d == MAX_ERRS_PER_ITERATION * iterations as real && d > 0.0;
      assert errors as real / d * d == errors as real;
    }
  }

  /** Nothing exceeds or is exceeded by what is not a number. */
  predicate Exceeds(p: Percent)
  {
    match p
    case NotANumber => false
    case Infinite => true
    case Finite(v) => v > TOTAL_ERROR_THRESHOLD
  }

  predicate Tolerable(errors: nat, iterations: nat) { 5 * errors <= 2 * iterations }

  /** The test in whole numbers, zero iterations included: then no error is tolerated. */
  lemma ThresholdExactly(errors: nat, iterations: nat)
    ensures Exceeds(ErrPercent(errors, iterations)) <==> !Tolerable(errors, iterations)
  {
    if iterations > 0 {
      var e, n := errors as real, iterations as real;
      QuotientExceeds(e, 2.0 * n);
      assert 5.0 * e <= 2.0 * n <==> 5 * errors <= 2 * iterations by {
        assert 5.0 * e == (5 * errors) as real && 2.0 * n == (2 * iterations) as real;
      }
    }
  }

  lemma QuotientExceeds(e: real, d: real)
    requires d > 0.0
    ensures e / d > 0.2 <==> 5.0 * e > d
  {
    var q := e / d;
    assert q * d == e;
    if q > 0.2 {
      assert (q - 0.2) * d > 0.0;
    } else {
      assert (0.2 - q) * d >= 0.0;
    }
  }

  /** How many errors there are after `k` checks in a row. */
  function AfterChecks(errors: nat, iterations: nat, k: nat): nat
  {
    if k == 0 then errors
    else
      var before := AfterChecks(errors, iterations, k - 1);
      if Tolerable(before, iterations) then before else before + 1
  }

  /** A failed check adds an error, so without further iterations the verdict never changes. */
  lemma {:induction false} VerdictSticks(errors: nat, iterations: nat, k: nat)
    ensures AfterChecks(errors, iterations, k) == if Tolerable(errors, iterations) then errors else errors + k
    ensures Tolerable(AfterChecks(errors, iterations, k), iterations) <==> Tolerable(errors, iterations)
  {
    if k > 0 {
      VerdictSticks(errors, iterations, k - 1);
    }
  }

  // ---- the checker ----

  method AddFailure(errs: ErrorSet, what: string, output: Option<string>)
    requires errs.Valid()
    modifies errs
    ensures errs.Valid() && errs.Errors() == old(errs.Errors()) + Single(what, output)
  {
    if output.Some? {
      errs.AddError(what + output.value);
    }
  }

  /** The cleanup's own error set, absent when nothing failed. */
  method Cleanup(it: Iteration) returns (errs: ErrorSet?)
    ensures errs == null <==> CleanupErrors(it) == multiset{}
    ensures errs != null ==> fresh(errs) && errs.Valid() && errs.Errors() == CleanupErrors(it)
  {
    var collected := new ErrorSet();
    AddFailure(collected, UNBIND, it.unbind);
    AddFailure(collected, DELETE_SERVICE, it.deleteService);
    AddFailure(collected, DELETE_APP, it.delete);
    var any := collected.NonEmpty();
    errs := if any then collected else null;
  }

  class Checker {
    const errors: ErrorSet
    var iterationCount: nat

    constructor ()
      ensures fresh(errors) && errors.Valid() && errors.Errors() == multiset{} && iterationCount == 0
    {
      errors := new ErrorSet();
      iterationCount := 0;
    }

    method Iterate(it: Iteration)
      requires errors.Valid()
      modifies this, errors
      ensures errors.Valid()
      ensures errors.Errors() == old(errors.Errors()) + DeployErrors(it) + CleanupErrors(it)
      ensures iterationCount == old(iterationCount) + 1
    {
      if it.deploy.Some? {
        errors.AddError(it.deploy.value);
      }
      var errs := Cleanup(it);
      if errs != null {
        errors.AddSet(errs);
      }
      iterationCount := iterationCount + 1;
    }

    /** The loop until Stop. */
    method Start(its: seq<Iteration>)
      requires errors.Valid()
      modifies this, errors
      ensures errors.Valid()
      ensures errors.Errors() == old(errors.Errors()) + AllErrors(its)
      ensures iterationCount == old(iterationCount) + |its|
    {
      ghost var errors0 := errors.Errors();
      for i := 0 to |its|
        invariant errors.Valid()
        invariant errors.Errors() == errors0 + AllErrors(its[..i])
        invariant iterationCount == old(iterationCount) + i
      {
        AllErrorsNext(its, i, errors0);
        Iterate(its[i]);
      }
      assert its[..|its|] == its;
    }

    /** The verdict; a failed check is itself recorded, with a message `report` about the percentage. */
    method Check(report: Percent -> string) returns (ok: bool, count: nat, percent: Percent)
      requires errors.Valid()
      modifies errors
      ensures errors.Valid()
      ensures ok <==> Tolerable(|old(errors.Errors())|, iterationCount)
      ensures count == iterationCount && percent == ErrPercent(|old(errors.Errors())|, iterationCount)
      ensures errors.Errors() == old(errors.Errors()) + if ok then multiset{} else multiset{report(percent)}
    {
      count := iterationCount;
      var errsOccurred := errors.Total();
      percent := ErrPercent(errsOccurred, count);
      ThresholdExactly(errsOccurred, count);
      ok := true;
      if Exceeds(percent) {
        ok := false;
        errors.AddError(report(percent));
      }
    }
  }

  /** A new checker, some iterations, and the first check. */
  method FirstCheck(its: seq<Iteration>, report: Percent -> string) returns (ok: bool, errors: nat)
    ensures errors == FailedCalls(its) && errors <= 4 * |its|
    ensures ok <==> 5 * errors <= 2 * |its|
  {
    var c := new Checker();
    c.Start(its);
    AtMostFour(its);
    FailedCallsCount(its);
    errors := c.errors.Total();
    var count, percent;
    ok, count, percent := c.Check(report);
  }
}
