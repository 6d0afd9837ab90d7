/**
 * The in-process promise chain that serializes the turns of one account.
 * Every call chains behind the promise found in the map entry; the entry is
 * dropped by a later callback once the last chained call has settled.
 */
module AccountLock {
  import opened Common

  datatype Kind = DrainJob | OtherJob
  datatype Phase = Waiting | Running | Settled

  /** One call of the lock: what it chained behind and how far it got. */
  datatype Job = Job(kind: Kind, prev: Option<nat>, phase: Phase)

  /** All calls so far, in call order, and the call whose tail the map holds. */
  datatype Chain = Chain(jobs: seq<Job>, entry: Option<nat>)

  function Call(c: Chain, kind: Kind): Chain {
    Chain(c.jobs + [Job(kind, c.entry, Waiting)], Some(|c.jobs|))
  }

  /** A call begins once the call it chained behind has settled, however it settled. */
  predicate CanStart(c: Chain, k: nat) {
    && k < |c.jobs| && c.jobs[k].phase.Waiting?
    && match c.jobs[k].prev
       case None => true
       case Some(p) => p < |c.jobs| && c.jobs[p].phase.Settled?
  }

  function Start(c: Chain, k: nat): Chain
    requires k < |c.jobs|
  {
    c.(jobs := c.jobs[k := c.jobs[k].(phase := Running)])
  }

  function Settle(c: Chain, k: nat): Chain
    requires k < |c.jobs|
  {
    c.(jobs := c.jobs[k := c.jobs[k].(phase := Settled)])
  }

  /** The clean-up callback of call k: drop the entry only if it is still k's own. */
  function Collect(c: Chain, k: nat): Chain {
    if c.entry == Some(k) then c.(entry := None) else c
  }

  ghost predicate SettledBefore(c: Chain, k: nat)
    requires k <= |c.jobs|
  {
    forall j :: 0 <= j < k ==> c.jobs[j].phase.Settled?
  }

  ghost predicate Ordered(c: Chain) {
    && (forall k :: 0 <= k < |c.jobs| && c.jobs[k].prev.Some? ==> c.jobs[k].prev.value == k - 1)
    && (forall k :: 0 <= k < |c.jobs| && c.jobs[k].prev.None? ==> SettledBefore(c, k))
    && (forall k :: 0 <= k < |c.jobs| && !c.jobs[k].phase.Waiting? ==> SettledBefore(c, k))
    && match c.entry
       case None => SettledBefore(c, |c.jobs|)
       case Some(e) => e + 1 == |c.jobs|
  }

  lemma CallKeepsOrder(c: Chain, kind: Kind)
    requires Ordered(c)
    ensures Ordered(Call(c, kind))
  {
    var d := Call(c, kind);
    forall k | 0 <= k < |d.jobs| && (d.jobs[k].prev.None? || !d.jobs[k].phase.Waiting?)
      ensures SettledBefore(d, k)
    {
      if k < |c.jobs| { assert SettledBefore(c, k); } else { assert SettledBefore(c, |c.jobs|); }
    }
  }

  /**
   * Starting is exclusive and in call order: when call k may start, every earlier
   * call has settled and no later call has begun.
   */
  lemma StartIsExclusive(c: Chain, k: nat)
    requires Ordered(c) && CanStart(c, k)
    ensures SettledBefore(c, k)
    ensures forall j :: k < j < |c.jobs| ==> c.jobs[j].phase.Waiting?
    ensures Ordered(Start(c, k))
  {
    if c.jobs[k].prev.Some? { assert SettledBefore(c, k - 1); }
    forall j | k < j < |c.jobs| ensures c.jobs[j].phase.Waiting? {
      assert !SettledBefore(c, j);
    }
    var d := Start(c, k);
    forall i | 0 <= i < |d.jobs| && (d.jobs[i].prev.None? || !d.jobs[i].phase.Waiting?)
      ensures SettledBefore(d, i)
    {
      if i != k { assert SettledBefore(c, i); }
    }
  }

  lemma SettleKeepsOrder(c: Chain, k: nat)
    requires Ordered(c) && k < |c.jobs| && c.jobs[k].phase.Running?
    ensures Ordered(Settle(c, k))
    ensures k + 1 < |c.jobs| ==> CanStart(Settle(c, k), k + 1)
  {
    var d := Settle(c, k);
    forall i | 0 <= i < |d.jobs| && (d.jobs[i].prev.None? || !d.jobs[i].phase.Waiting?)
      ensures SettledBefore(d, i)
    {
      assert SettledBefore(c, i);
    }
  }

  /** The entry is removed only when nothing is chained behind the settled call. */
  lemma CollectOnlyLast(c: Chain, k: nat)
    requires Ordered(c) && k < |c.jobs| && c.jobs[k].phase.Settled?
    ensures Ordered(Collect(c, k))
    ensures Collect(c, k) != c ==> k + 1 == |c.jobs| && SettledBefore(c, |c.jobs|)
  {
    assert SettledBefore(c, k);
  }

  /** At most one call of an account runs at any time. */
  lemma AtMostOneRunning(c: Chain, i: nat, j: nat)
    requires Ordered(c) && i < |c.jobs| && j < |c.jobs|
    requires c.jobs[i].phase.Running? && c.jobs[j].phase.Running?
    ensures i == j
  {
    assert SettledBefore(c, i) && SettledBefore(c, j);
  }
}
