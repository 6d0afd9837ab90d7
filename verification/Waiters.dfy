/**
 * Parked waiters keyed by session, account, device or inbox row: a map from key to a
 * shared set of waiters that each waiter leaves on its own when it is woken, timed out or
 * aborted.
 */
module Waiters {
  import opened Common

  // ------------------------------------------------------------ what a registry promises

  /** A call of waitFor: its key, and what its promise resolved to, if it has. */
  datatype Call = Call(key: nat, result: Option<bool>)

  function Settled(calls: seq<Call>, id: nat, woken: bool): seq<Call>
    requires id < |calls|
  {
    if calls[id].result.Some? then calls else calls[id := calls[id].(result := Some(woken))]
  }

  function Woken(calls: seq<Call>, key: nat): seq<Call> {
    seq(|calls|, i requires 0 <= i < |calls| =>
      if calls[i].key == key && calls[i].result.None? then calls[i].(result := Some(true)) else calls[i])
  }

  datatype Step = Park(key: nat, aborted: bool) | Wake(key: nat) | Expire(id: nat)

  /** A timeout or an abort is an Expire; it may be late, for a call that has already settled. */
  function Apply(calls: seq<Call>, step: Step): seq<Call> {
    match step
    case Park(key, aborted) => calls + [Call(key, if aborted then Some(false) else None)]
    case Wake(key) => Woken(calls, key)
    case Expire(id) => if id < |calls| then Settled(calls, id, false) else calls
  }

  function Run(calls: seq<Call>, steps: seq<Step>): seq<Call> {
    if steps == [] then calls else Apply(Run(calls, steps[..|steps| - 1]), steps[|steps| - 1])
  }

  /**
   * Under any order of wakes, timeouts and aborts a call settles at most once; it settles
   * at its first wake or expiry, with true exactly for a wake.
   */
  lemma {:induction false} SettlesOnce(calls: seq<Call>, steps: seq<Step>, id: nat)
    requires id < |calls|
    ensures
      var now := Run(calls, steps);
      && |calls| <= |now| && now[id].key == calls[id].key
      && (if calls[id].result.Some? then now[id] == calls[id] else now[id].result == FirstOutcome(calls[id].key, id, steps))
  {
    if steps != [] { SettlesOnce(calls, steps[..|steps| - 1], id); }
  }

  /** The first step of a history that concerns the call decides. */
  function FirstOutcome(key: nat, id: nat, steps: seq<Step>): Option<bool> {
    if steps == [] then None
    else
      var earlier := FirstOutcome(key, id, steps[..|steps| - 1]);
      if earlier.Some? then earlier
      else
        match steps[|steps| - 1]
        case Park(_, _) => None
        case Wake(k) => if k == key then Some(true) else None
        case Expire(i) => if i == id then Some(false) else None
  }

  // ------------------------------------------------------------ the registry

  /** The calls of a key that have not settled. */
  function Parked(calls: seq<Call>, key: nat): set<nat> {
    set id: nat | id < |calls| && calls[id] == Call(key, None)
  }

  lemma ParkedSnoc(calls: seq<Call>, call: Call, key: nat)
    ensures Parked(calls + [call], key) == Parked(calls, key) + if call == Call(key, None) then {|calls|} else {}
  {
  }

  lemma ParkedWithout(calls: seq<Call>, id: nat, woken: bool, key: nat)
    requires id < |calls| && calls[id].result.None?
    ensures Parked(Settled(calls, id, woken), key) == Parked(calls, key) - if key == calls[id].key then {id} else {}
  {
  }

  /** Waking one of a key's parked calls is part of waking them all. */
  lemma WokenSettled(calls: seq<Call>, key: nat, id: nat)
    requires id in Parked(calls, key)
    ensures Woken(Settled(calls, id, true), key) == Woken(calls, key)
  {
  }

  lemma WokenNone(calls: seq<Call>, key: nat)
    requires Parked(calls, key) == {}
    ensures Woken(calls, key) == calls
  {
    forall id | 0 <= id < |calls| ensures Woken(calls, key)[id] == calls[id] {
      assert id !in Parked(calls, key);
    }
  }

  /** The mutable set that the waiters of one key share. */
  class WaiterSet {
    var members: set<nat>

    constructor ()
      ensures members == {}
    {
      members := {};
    }
  }

  class Registry {
    var waiters: map<nat, WaiterSet>
    var calls: seq<Call>
    var homes: seq<WaiterSet>   // the set each call's closure captured

    ghost function Repr(): set<object>
      reads this
    {
      {this} + set k | k in waiters :: waiters[k]
    }

    /**
     * The map holds exactly the unsettled calls, each under its key and in the set its
     * closure captured, and no empty set.
     */
    ghost predicate Valid()
      reads Repr()
    {
      Sound() && forall k :: k in waiters ==> waiters[k].members != {}
    }

    ghost predicate Sound()
      reads Repr()
    {
      && |homes| == |calls|
      && (forall k, l :: k in waiters && l in waiters && waiters[k] == waiters[l] ==> k == l)
      && (forall k :: k in waiters ==> waiters[k].members == Parked(calls, k))
      && (forall id :: 0 <= id < |calls| && calls[id].result.None? ==>
            calls[id].key in waiters && waiters[calls[id].key] == homes[id])
    }

    constructor ()
      ensures Valid() && calls == [] && fresh(Repr())
    {
      waiters, calls, homes := map[], [], [];
    }

    /** Parks a call; one that is aborted already leaves again at once. */
    method WaitFor(key: nat, aborted: bool) returns (id: nat)
      requires Valid()
      modifies Repr()
      ensures Valid() && fresh(Repr() - old(Repr()))
      ensures id == |old(calls)| && calls == Apply(old(calls), Park(key, aborted))
    {
      id := Enter(key);
      if aborted { Settle(id, false); }
    }

    /** The set of a key, made and entered into the map if there is none yet. */
    method SetOf(key: nat) returns (home: WaiterSet)
      requires Valid()
      modifies this
      ensures Sound() && fresh(Repr() - old(Repr()))
      ensures key in waiters && waiters[key] == home
      ensures forall k :: k in waiters && k != key ==> waiters[k].members != {}
      ensures calls == old(calls) && homes == old(homes)
    {
      if key in waiters {
        home := waiters[key];
      } else {
        home := new WaiterSet();
        assert forall id :: 0 <= id < |calls| ==> calls[id] != Call(key, None);
      }
      waiters := waiters[key := home];
    }

    method Enter(key: nat) returns (id: nat)
      requires Valid()
      modifies Repr()
      ensures Valid() && fresh(Repr() - old(Repr()))
      ensures id == |old(calls)| && calls == old(calls) + [Call(key, None)]
    {
      var home := SetOf(key);
      forall k { ParkedSnoc(calls, Call(key, None), k); }
      id := |calls|;
      calls := calls + [Call(key, None)];
      homes := homes + [home];
      home.members := home.members + {id};
    }

    /** What a waiter does when it is woken, or its timer or its abort signal fires. */
    method Settle(id: nat, woken: bool)
      requires Valid() && id < |calls|
      modifies Repr()
      ensures Valid() && Repr() <= old(Repr())
      ensures calls == Settled(old(calls), id, woken)
    {
      if calls[id].result.Some? { return; }
      var home, key := homes[id], calls[id].key;
      forall k { ParkedWithout(calls, id, woken, k); }
      calls := calls[id := calls[id].(result := Some(woken))];
      home.members := home.members - {id};
      assert forall i :: 0 <= i < |calls| && calls[i].result.None? ==> i in Parked(calls, calls[i].key);
      if home.members == {} { waiters := waiters - {key}; }
    }

    /** Wakes every waiter of the key; iterates over a copy, since each leaves as it is woken. */
    method WakeKey(key: nat)
      requires Valid()
      modifies Repr()
      ensures Valid() && Repr() <= old(Repr())
      ensures calls == Woken(old(calls), key)
    {
      if key !in waiters {
        WokenNone(calls, key);
        return;
      }
      var copy := waiters[key].members;
      while copy != {}
        invariant Valid() && Repr() <= old(Repr())
        invariant copy == Parked(calls, key)
        invariant Woken(calls, key) == Woken(old(calls), key)
        decreases |copy|
      {
        var id :| id in copy;
        WokenSettled(calls, key, id);
        ParkedWithout(calls, id, true, key);
        Settle(id, true);
        copy := copy - {id};
      }
      WokenNone(calls, key);
    }

    method Perform(step: Step)
      requires Valid()
      modifies Repr()
      ensures Valid() && fresh(Repr() - old(Repr()))
      ensures calls == Apply(old(calls), step)
    {
      match step {
        case Park(key, aborted) => var _ := WaitFor(key, aborted);
        case Wake(key) => WakeKey(key);
        case Expire(id) => if id < |calls| { Settle(id, false); }
      }
    }

    /** Whatever else the process does with the registry meanwhile. */
    method PerformAll(steps: seq<Step>)
      requires Valid()
      modifies Repr()
      ensures Valid() && fresh(Repr() - old(Repr()))
      ensures calls == Run(old(calls), steps)
    {
      for i := 0 to |steps|
        invariant Valid() && fresh(Repr() - old(Repr()))
        invariant calls == Run(old(calls), steps[..i])
      {
        assert steps[..i + 1][..i] == steps[..i];
        Perform(steps[i]);
      }
      assert steps[..|steps|] == steps;
    }
  }

  /** No empty sets and no strays: a key is in the map exactly while a call of it is parked. */
  lemma MapIsExact(r: Registry, key: nat)
    requires r.Valid()
    ensures key in r.waiters <==> Parked(r.calls, key) != {}
    ensures key in r.waiters ==> r.waiters[key].members == Parked(r.calls, key)
  {
    if id :| id in Parked(r.calls, key) {
      assert r.calls[id].key in r.waiters;
    }
  }

  // ------------------------------------------------------------ racing two waiters

  /** What first happens to a call that waits on a session and on a device. */
  datatype Event = SessionNotify | DeviceNotify | SessionTimer | DeviceTimer | OuterAbort

  /** What the event does to the calls of a registry when it concerns that registry's key or call. */
  function Notified(calls: seq<Call>, key: nat, notified: bool): seq<Call> {
    if notified then Woken(calls, key) else calls
  }

  /** Steps of others: none wakes the key or expires the call. */
  predicate Concerns(steps: seq<Step>, key: nat, id: nat) {
    exists i :: 0 <= i < |steps| && (steps[i] == Wake(key) || steps[i] == Expire(id))
  }

  lemma {:induction false} UnconcernedStays(key: nat, id: nat, steps: seq<Step>)
    requires !Concerns(steps, key, id)
    ensures FirstOutcome(key, id, steps).None?
  {
    if steps != [] {
      var n := |steps| - 1;
      assert steps[n] != Wake(key) && steps[n] != Expire(id);
      assert forall i :: 0 <= i < n ==> steps[..n][i] == steps[i];
      UnconcernedStays(key, id, steps[..n]);
    }
  }

  /** The calls of a side just before its race is cancelled. */
  function RaceSide(calls: seq<Call>, key: nat, aborted: bool, others: seq<Step>, notified: bool): seq<Call> {
    Notified(Run(Apply(calls, Park(key, aborted)), others), key, notified)
  }

  /** By then the side's own call has seen a wake exactly if the notification was for it. */
  lemma RaceSideSeen(calls: seq<Call>, key: nat, aborted: bool, others: seq<Step>, notified: bool)
    requires !Concerns(others, key, |calls|)
    ensures
      var seen := RaceSide(calls, key, aborted, others, notified);
      && |calls| < |seen|
      && (seen[|calls|].result == Some(true) <==> !aborted && notified)
      && Settled(seen, |calls|, false)[|calls|].result == Some(!aborted && notified)
  {
    SettlesOnce(Apply(calls, Park(key, aborted)), others, |calls|);
    UnconcernedStays(key, |calls|, others);
  }

  class Race {
    const sessions: Registry
    const devices: Registry

    constructor (sessions: Registry, devices: Registry)
      ensures this.sessions == sessions && this.devices == devices
    {
      this.sessions, this.devices := sessions, devices;
    }

    ghost predicate Valid()
      reads sessions.Repr(), devices.Repr()
    {
      sessions.Valid() && devices.Valid() && sessions.Repr() !! devices.Repr()
    }

    method ParkBoth(sessionKey: nat, deviceKey: nat, aborted: bool) returns (a: nat, b: nat)
      requires Valid()
      modifies sessions.Repr(), devices.Repr()
      ensures Valid()
      ensures fresh(sessions.Repr() - old(sessions.Repr())) && fresh(devices.Repr() - old(devices.Repr()))
      ensures a == |old(sessions.calls)| && sessions.calls == Apply(old(sessions.calls), Park(sessionKey, aborted))
      ensures b == |old(devices.calls)| && devices.calls == Apply(old(devices.calls), Park(deviceKey, aborted))
    {
      a := sessions.WaitFor(sessionKey, aborted);
      b := devices.WaitFor(deviceKey, aborted);
    }

    method Notify(sessionKey: nat, deviceKey: nat, event: Event)
      requires Valid()
      modifies sessions.Repr(), devices.Repr()
      ensures Valid() && sessions.Repr() <= old(sessions.Repr()) && devices.Repr() <= old(devices.Repr())
      ensures sessions.calls == Notified(old(sessions.calls), sessionKey, event.SessionNotify?)
      ensures devices.calls == Notified(old(devices.calls), deviceKey, event.DeviceNotify?)
    {
      if event.SessionNotify? { sessions.WakeKey(sessionKey); }
      if event.DeviceNotify? { devices.WakeKey(deviceKey); }
    }

    /** Both of a race's calls leave, whichever of them is still parked. */
    method CancelBoth(a: nat, b: nat)
      requires Valid() && a < |sessions.calls| && b < |devices.calls|
      modifies sessions.Repr(), devices.Repr()
      ensures Valid() && sessions.Repr() <= old(sessions.Repr()) && devices.Repr() <= old(devices.Repr())
      ensures sessions.calls == Settled(old(sessions.calls), a, false)
      ensures devices.calls == Settled(old(devices.calls), b, false)
    {
      sessions.Settle(a, false);
      devices.Settle(b, false);
    }

    /**
     * Parks on both, takes the first result and aborts both. Meanwhile other calls come
     * and go. Neither call of the race stays parked, whoever wins, and cancelling does
     * nothing to any other call.
     */
    method WaitForSessionOrDeviceEvent(sessionKey: nat, deviceKey: nat, aborted: bool, event: Event,
                                       sessionOthers: seq<Step>, deviceOthers: seq<Step>)
      returns (woken: bool)
      requires Valid()
      requires !Concerns(sessionOthers, sessionKey, |sessions.calls|) && !Concerns(deviceOthers, deviceKey, |devices.calls|)
      modifies sessions.Repr(), devices.Repr()
      ensures Valid()
      ensures woken <==> !aborted && (event.SessionNotify? || event.DeviceNotify?)
      ensures
        var a, seen := |old(sessions.calls)|, RaceSide(old(sessions.calls), sessionKey, aborted, sessionOthers, event.SessionNotify?);
        && a < |seen| && sessions.calls == Settled(seen, a, false)
        && sessions.calls[a].result == Some(!aborted && event.SessionNotify?)
      ensures
        var b, seen := |old(devices.calls)|, RaceSide(old(devices.calls), deviceKey, aborted, deviceOthers, event.DeviceNotify?);
        && b < |seen| && devices.calls == Settled(seen, b, false)
        && devices.calls[b].result == Some(!aborted && event.DeviceNotify?)
    {
      RaceSideSeen(sessions.calls, sessionKey, aborted, sessionOthers, event.SessionNotify?);
      RaceSideSeen(devices.calls, deviceKey, aborted, deviceOthers, event.DeviceNotify?);
      var a, b := ParkBoth(sessionKey, deviceKey, aborted);
      PerformBoth(sessionOthers, deviceOthers);
      Notify(sessionKey, deviceKey, event);
      woken := sessions.calls[a].result == Some(true) || devices.calls[b].result == Some(true);
      CancelBoth(a, b);
    }

    method PerformBoth(sessionSteps: seq<Step>, deviceSteps: seq<Step>)
      requires Valid()
      modifies sessions.Repr(), devices.Repr()
      ensures Valid()
      ensures fresh(sessions.Repr() - old(sessions.Repr())) && fresh(devices.Repr() - old(devices.Repr()))
      ensures sessions.calls == Run(old(sessions.calls), sessionSteps)
      ensures devices.calls == Run(old(devices.calls), deviceSteps)
    {
      sessions.PerformAll(sessionSteps);
      devices.PerformAll(deviceSteps);
    }
  }

  // ------------------------------------------------------------ confirming a delivery

  const ENSURE_LISTENER_BUDGET_MS: int := 2_000

  /** A database look-up: evaluated and answered so many ms after it is sent, or rejected. */
  datatype Lookup = Lookup(evaluated: nat, answered: nat, rejects: bool)

  /** Does the look-up count: answered, in time, and not before it was evaluated? */
  predicate InTime(lookup: Lookup, ms: nat) {
    !lookup.rejects && lookup.evaluated <= lookup.answered < ms
  }

  predicate DoneAt(deliveredAt: Option<int>, now: int) {
    deliveredAt.Some? && deliveredAt.value <= now
  }

  /** A look-up that is cut off after `ms`; a rejection and a cut-off both read as false. */
  method SettleWithin(now: int, lookup: Lookup, ms: nat, deliveredAt: Option<int>) returns (done: bool, finish: int)
    ensures finish == now + if lookup.answered < ms then lookup.answered else ms
    ensures done <==> InTime(lookup, ms) && DoneAt(deliveredAt, now + lookup.evaluated)
    ensures done ==> DoneAt(deliveredAt, finish)
  {
    if lookup.answered >= ms { return false, now + ms; }
    finish := now + lookup.answered;
    done := !lookup.rejects && lookup.evaluated <= lookup.answered && DoneAt(deliveredAt, now + lookup.evaluated);
  }

  /** Has the caller's signal fired by then? */
  predicate AbortedBy(abortAt: Option<int>, now: int) {
    abortAt.Some? && abortAt.value <= now
  }

  /** Has a waiter parked at that time been woken by then? */
  predicate WokenBy(notified: Option<int>, parkedAt: int, now: int) {
    notified.Some? && parkedAt <= notified.value <= now
  }

  /** When a look-up sent at that time is answered or cut off. */
  function CutOff(sentAt: int, lookup: Lookup, ms: nat): int {
    sentAt + if lookup.answered < ms then lookup.answered else ms
  }

  function Later(a: int, b: int): int {
    if a < b then b else a
  }

  /** When a waiter parked at that time resolves: woken, aborted, or timed out. */
  function ParkEnds(parkedAt: int, timeoutMs: nat, abortAt: Option<int>, notified: Option<int>): int {
    var aborted := if abortAt.Some? && abortAt.value < parkedAt + timeoutMs then abortAt.value else parkedAt + timeoutMs;
    if notified.Some? && parkedAt <= notified.value < aborted then notified.value else aborted
  }

  /** When the second look-up is sent: the parking is over, and so is the first look-up. */
  function ResumedAt(parkedAt: int, timeoutMs: nat, abortAt: Option<int>, notified: Option<int>, first: Lookup): int {
    var park := ParkEnds(parkedAt, timeoutMs, abortAt, notified);
    var looked := parkedAt + if first.answered < timeoutMs then first.answered else timeoutMs;
    if park < looked then looked else park
  }

  /** A notification or an abort ends the parking at once, and nothing but they and the timeout does. */
  lemma ResumesAtTheEvent(parkedAt: int, timeoutMs: nat, abortAt: Option<int>, notified: Option<int>, first: Lookup)
    ensures
      var resumedAt := ResumedAt(parkedAt, timeoutMs, abortAt, notified, first);
      && parkedAt <= resumedAt <= parkedAt + timeoutMs
      && (notified.Some? && parkedAt <= notified.value ==>
            resumedAt <= Later(notified.value, CutOff(parkedAt, first, timeoutMs)))
      && (abortAt.Some? ==> resumedAt <= Later(abortAt.value, CutOff(parkedAt, first, timeoutMs)))
      && (resumedAt < parkedAt + timeoutMs ==> WokenBy(notified, parkedAt, resumedAt) || AbortedBy(abortAt, resumedAt))
  {
  }

  method EndOfParking(now: int, timeoutMs: nat, abortAt: Option<int>, notified: Option<int>) returns (ends: int)
    ensures ends == ParkEnds(now, timeoutMs, abortAt, notified)
  {
    ends := now + timeoutMs;
    if abortAt.Some? && abortAt.value < ends { ends := abortAt.value; }
    if notified.Some? && now <= notified.value < ends { ends := notified.value; }
  }

  /**
   * Waits for a row's delivery: ensure the listener, park, look, wait, look again.
   * `notified` is when the row's notification first wakes a parked waiter, `abortAt` when
   * the caller's signal fires.
   *
   * It says true exactly if the signal had not fired before parking and one of the two
   * look-ups is in time and sees the delivery: the first right after parking, the second
   * once the parking has ended, by an abort too. It always ends within two seconds and
   * two timeouts. Unless aborted before the timeout it misses no delivery made before its parking ends,
   * however the notification and the first look-up interleave, if the second look-up
   * answers in time. A notification or an abort ends the parking at once, and nothing but
   * they and the timeout does.
   */
  method WaitForDelivered(start: int, timeoutMs: nat, abortAt: Option<int>, ensureMs: nat, deliveredAt: Option<int>,
                          notified: Option<int>, first: Lookup, second: Lookup)
    returns (confirmed: bool, finish: int, ghost parkedAt: int, ghost resumedAt: int)
    requires notified.Some? ==> DoneAt(deliveredAt, notified.value)
    ensures confirmed ==> DoneAt(deliveredAt, finish)
    ensures start <= finish <= start + ENSURE_LISTENER_BUDGET_MS + 2 * timeoutMs
    ensures AbortedBy(abortAt, start) ==> parkedAt == start
    ensures !AbortedBy(abortAt, start) ==>
      parkedAt == start + if ensureMs < ENSURE_LISTENER_BUDGET_MS then ensureMs else ENSURE_LISTENER_BUDGET_MS
    ensures resumedAt == ResumedAt(parkedAt, timeoutMs, abortAt, notified, first)
    ensures confirmed <==>
      && !AbortedBy(abortAt, parkedAt)
      && (|| (InTime(first, timeoutMs) && DoneAt(deliveredAt, parkedAt + first.evaluated))
          || (InTime(second, timeoutMs) && DoneAt(deliveredAt, resumedAt + second.evaluated)))
    ensures
      ((abortAt.Some? ==> abortAt.value >= parkedAt + timeoutMs) && InTime(second, timeoutMs)
       && DoneAt(deliveredAt, parkedAt + timeoutMs)) ==> confirmed
    ensures
      ((abortAt.Some? ==> abortAt.value >= parkedAt + timeoutMs) && InTime(second, timeoutMs)
       && notified.Some? && parkedAt <= notified.value <= parkedAt + timeoutMs) ==> confirmed
    ensures notified.Some? && parkedAt <= notified.value ==>
      finish <= Later(notified.value, CutOff(parkedAt, first, timeoutMs)) + CutOff(0, second, timeoutMs)
    ensures abortAt.Some? && parkedAt < abortAt.value ==>
      finish <= Later(abortAt.value, CutOff(parkedAt, first, timeoutMs)) + CutOff(0, second, timeoutMs)
    ensures resumedAt < parkedAt + timeoutMs ==>
      WokenBy(notified, parkedAt, resumedAt) || AbortedBy(abortAt, resumedAt)
  {
    hide ParkEnds;
    var now := start;
    if abortAt.Some? && abortAt.value <= now {
      ResumesAtTheEvent(now, timeoutMs, abortAt, notified, first);
      parkedAt, resumedAt := now, ResumedAt(now, timeoutMs, abortAt, notified, first);
      return false, now, parkedAt, resumedAt;
    }
    now := now + if ensureMs < ENSURE_LISTENER_BUDGET_MS then ensureMs else ENSURE_LISTENER_BUDGET_MS;
    parkedAt, resumedAt := now, ResumedAt(now, timeoutMs, abortAt, notified, first);
    ResumesAtTheEvent(now, timeoutMs, abortAt, notified, first);
    if abortAt.Some? && abortAt.value <= now { return false, now, parkedAt, resumedAt; }
    var parkEnds := EndOfParking(now, timeoutMs, abortAt, notified);
    confirmed, finish := SettleWithin(now, first, timeoutMs, deliveredAt);
    if confirmed { return; }
    now := if parkEnds < finish then finish else parkEnds;
    confirmed, finish := SettleWithin(now, second, timeoutMs, deliveredAt);
  }

  /** An abort during the wait does not make it false: the look-up after it may still see the delivery. */
  method AbortedWaitConfirms() returns (confirmed: bool)
    ensures confirmed
  {
    var yes, _, _, _ := WaitForDelivered(0, 30_000, Some(1_000), 5, Some(900), None,
      Lookup(2, 4, false), Lookup(2, 4, false));
    confirmed := yes;
  }
}
