/** Waiting for the own etcd to answer: etcdfab/sync/controller.go. */
module SyncController {
  import opened Site

  const MAX_SYNC_CALLS := 20
  const SYNC_SLEEP := 1

  /** How VerifySynced ends and how long it sleeps. */
  datatype Verdict = Verdict(synced: bool, slept: nat)

  /** No client means no poll; otherwise a poll succeeds within the first twenty, or none does. */
  predicate IsVerdict(selfClient: bool, keys: nat -> bool, v: Verdict)
  {
    if !selfClient then v == Verdict(false, 0)
    else
      && (forall j :: 0 <= j < v.slept ==> !keys(j))
      && if v.synced then v.slept < MAX_SYNC_CALLS && keys(v.slept) else v.slept == MAX_SYNC_CALLS
  }

  /** The polls from the k-th on. */
  function PollFrom(keys: nat -> bool, k: nat): (v: Verdict)
    requires k <= MAX_SYNC_CALLS
    ensures k <= v.slept && forall j :: k <= j < v.slept ==> !keys(j)
    ensures if v.synced then v.slept < MAX_SYNC_CALLS && keys(v.slept) else v.slept == MAX_SYNC_CALLS
    decreases MAX_SYNC_CALLS - k
  {
    if k == MAX_SYNC_CALLS then Verdict(false, k)
    else if keys(k) then Verdict(true, k)
    else PollFrom(keys, k + 1)
  }

  function Verify(selfClient: bool, keys: nat -> bool): (v: Verdict)
    ensures IsVerdict(selfClient, keys, v)
  {
    if selfClient then PollFrom(keys, 0) else Verdict(false, 0)
  }

  /** The answers admit one verdict. */
  lemma VerdictExact(selfClient: bool, keys: nat -> bool, v: Verdict)
    ensures IsVerdict(selfClient, keys, v) <==> v == Verify(selfClient, keys)
  {
    var w := Verify(selfClient, keys);
    var here, there := keys(v.slept), keys(w.slept);
  }

  method VerifySynced(site: Site, selfClient: bool, keys: nat -> bool) returns (synced: bool)
    modifies site`slept
    ensures synced == Verify(selfClient, keys).synced
    ensures site.slept == old(site.slept) + Verify(selfClient, keys).slept
  {
    if !selfClient {
      return false;
    }
    var i := 0;
    while i < MAX_SYNC_CALLS
      invariant 0 <= i <= MAX_SYNC_CALLS
      invariant site.slept == old(site.slept) + i
      invariant PollFrom(keys, i) == PollFrom(keys, 0)
      invariant forall j :: 0 <= j < i ==> !keys(j)
    {
      if keys(i) {
        return true;
      }
      site.Sleep(SYNC_SLEEP);
      i := i + 1;
    }
    return false;
  }
}
