/**
 * The lost-device notice: a sweep claims, in one guarded statement, every device that
 * dropped out while driven remotely and whose owner has texted since the last notice but
 * not just now. Times are milliseconds.
 */
module LostNotice {
  import opened Common

  const DEVICE_OFFLINE_NOTIFY_MS: int := 180_000
  const DEVICE_CONVERSATION_ACTIVE_MS: int := 120_000

  datatype Device = Device(account: nat, revoked: bool, disabled: bool, afkOn: bool, lostNotifiedAt: Option<int>)

  datatype Session = Session(device: nat, lastEventAt: int)

  datatype Inbound = Inbound(account: nat, at: int)

  /** Device ids are positions. */
  datatype Tables = Tables(devices: seq<Device>, sessions: seq<Session>, inbounds: seq<Inbound>)

  // ------------------------------------------------------------ the claiming statement

  predicate HasSessions(t: Tables, d: nat) {
    exists i :: 0 <= i < |t.sessions| && t.sessions[i].device == d
  }

  predicate BeatSince(t: Tables, d: nat, at: int) {
    exists i :: 0 <= i < |t.sessions| && t.sessions[i].device == d && t.sessions[i].lastEventAt >= at
  }

  predicate TextedAfter(t: Tables, account: nat, at: int) {
    exists i :: 0 <= i < |t.inbounds| && t.inbounds[i].account == account && t.inbounds[i].at > at
  }

  predicate TextedSince(t: Tables, account: nat, at: int) {
    exists i :: 0 <= i < |t.inbounds| && t.inbounds[i].account == account && t.inbounds[i].at >= at
  }

  predicate Due(t: Tables, d: nat, at: int)
    requires d < |t.devices|
  {
    var device := t.devices[d];
    && !device.revoked && !device.disabled && device.afkOn
    && HasSessions(t, d)
    && !BeatSince(t, d, at - DEVICE_OFFLINE_NOTIFY_MS)
    && (device.lostNotifiedAt.None? || TextedAfter(t, device.account, device.lostNotifiedAt.value))
    && !TextedSince(t, device.account, at - DEVICE_CONVERSATION_ACTIVE_MS)
  }

  function Stamped(t: Tables, d: nat, at: int): Device
    requires d < |t.devices|
  {
    if Due(t, d, at) then t.devices[d].(lostNotifiedAt := Some(at)) else t.devices[d]
  }

  function Claim(t: Tables, at: int): Tables {
    t.(devices := seq(|t.devices|, d requires 0 <= d < |t.devices| => Stamped(t, d, at)))
  }

  class Database {
    var devices: seq<Device>
    var sessions: seq<Session>
    var inbounds: seq<Inbound>

    ghost function View(): Tables
      reads this
    {
      Tables(devices, sessions, inbounds)
    }

    /** Stamps and returns exactly the due devices, in table order. */
    method ClaimDevicesToNotifyLost(at: int) returns (claimed: seq<nat>)
      modifies this`devices
      ensures View() == Claim(old(View()), at)
      ensures forall d: nat :: d in claimed <==> d < |old(devices)| && Due(old(View()), d, at)
      ensures forall i, j :: 0 <= i < j < |claimed| ==> claimed[i] < claimed[j]
    {
      claimed := [];
      var t := Tables(devices, sessions, inbounds);
      for d := 0 to |t.devices|
        invariant |devices| == |t.devices| && sessions == t.sessions && inbounds == t.inbounds
        invariant forall i :: 0 <= i < d ==> devices[i] == Stamped(t, i, at)
        invariant forall i :: d <= i < |devices| ==> devices[i] == t.devices[i]
        invariant forall i: nat :: i in claimed <==> i < d && Due(t, i, at)
        invariant forall i :: 0 <= i < |claimed| ==> claimed[i] < d
        invariant forall i, j :: 0 <= i < j < |claimed| ==> claimed[i] < claimed[j]
      {
        if Due(t, d, at) {
          devices := devices[d := t.devices[d].(lostNotifiedAt := Some(at))];
          claimed := claimed + [d];
        }
      }
      assert devices == Claim(t, at).devices;
    }
  }

  // ------------------------------------------------------------ runs

  /** `claims[d]` remembers the times at which device d was claimed. */
  datatype State = State(tables: Tables, claims: seq<seq<int>>)

  /**
   * `at` is a statement's own now(): concurrent sweeps may run with any order of times.
   * Sessions beat, appear and vanish in any way. Backfill is the migration that stamps a
   * device never announced so far.
   */
  datatype Step =
    | Sweep(at: int)
    | Sessions(sessions: seq<Session>)
    | Backfill(device: nat, at: int)
    | Text(account: nat, at: int)
    | Register(account: nat)
    | Configure(device: nat, revoked: bool, disabled: bool, afkOn: bool)

  predicate Enabled(s: State, step: Step) {
    match step
    case Sweep(_) => |s.claims| == |s.tables.devices|
    case Backfill(d, _) => d < |s.tables.devices| && s.tables.devices[d].lostNotifiedAt.None?
    case Configure(d, _, _, _) => d < |s.tables.devices|
    case _ => true
  }

  function Recorded(s: State, d: nat, at: int): seq<int>
    requires d < |s.tables.devices| == |s.claims|
  {
    if Due(s.tables, d, at) then s.claims[d] + [at] else s.claims[d]
  }

  function Apply(s: State, step: Step): State
    requires Enabled(s, step)
  {
    var t := s.tables;
    match step
    case Sweep(at) =>
      State(Claim(t, at), seq(|s.claims|, d requires 0 <= d < |s.claims| => Recorded(s, d, at)))
    case Sessions(sessions) => s.(tables := t.(sessions := sessions))
    case Backfill(d, at) => s.(tables := t.(devices := t.devices[d := t.devices[d].(lostNotifiedAt := Some(at))]))
    case Text(account, at) => s.(tables := t.(inbounds := t.inbounds + [Inbound(account, at)]))
    case Register(account) =>
      State(t.(devices := t.devices + [Device(account, false, false, false, None)]), s.claims + [[]])
    case Configure(d, revoked, disabled, afkOn) =>
      s.(tables := t.(devices :=
        t.devices[d := t.devices[d].(revoked := revoked, disabled := disabled, afkOn := afkOn)]))
  }

  const INIT: State := State(Tables([], [], []), [])

  function Exec(s: State, steps: seq<Step>): Option<State> {
    if steps == [] then Some(s)
    else
      match Exec(s, steps[..|steps| - 1])
      case None => None
      case Some(t) => if Enabled(t, steps[|steps| - 1]) then Some(Apply(t, steps[|steps| - 1])) else None
  }

  // ------------------------------------------------------------ invariants

  /** How many texts of the account are older than the given time. */
  function TextsBefore(inbounds: seq<Inbound>, account: nat, at: int): nat {
    if inbounds == [] then 0
    else
      var last := inbounds[|inbounds| - 1];
      TextsBefore(inbounds[..|inbounds| - 1], account, at) + if last.account == account && last.at < at then 1 else 0
  }

  function Texts(inbounds: seq<Inbound>, account: nat): nat {
    if inbounds == [] then 0
    else Texts(inbounds[..|inbounds| - 1], account) + if inbounds[|inbounds| - 1].account == account then 1 else 0
  }

  lemma {:induction false} TextsBeforeGrows(inbounds: seq<Inbound>, account: nat, before: int, after: int)
    requires before <= after
    ensures TextsBefore(inbounds, account, before) <= TextsBefore(inbounds, account, after) <= Texts(inbounds, account)
  {
    if inbounds != [] { TextsBeforeGrows(inbounds[..|inbounds| - 1], account, before, after); }
  }

  lemma {:induction false} TextBetweenCounts(inbounds: seq<Inbound>, account: nat, before: int, after: int, i: nat)
    requires i < |inbounds| && inbounds[i].account == account && before <= inbounds[i].at < after
    ensures TextsBefore(inbounds, account, before) < TextsBefore(inbounds, account, after)
  {
    var n := |inbounds| - 1;
    if i < n {
      TextBetweenCounts(inbounds[..n], account, before, after, i);
    } else {
      TextsBeforeGrows(inbounds[..n], account, before, after);
    }
  }

  /** Was there a text after the one claim and, by the quiet window, before the other? */
  predicate TextBetween(inbounds: seq<Inbound>, account: nat, before: int, after: int) {
    exists i :: 0 <= i < |inbounds| && inbounds[i].account == account
      && before < inbounds[i].at < after - DEVICE_CONVERSATION_ACTIVE_MS
  }

  /** A device's claims: stamped, re-armed by a text each, and counted by texts. */
  ghost predicate ClaimsOk(device: Device, claims: seq<int>, inbounds: seq<Inbound>) {
    && (claims != [] ==> device.lostNotifiedAt == Some(claims[|claims| - 1]))
    && (forall i :: 0 < i < |claims| ==> TextBetween(inbounds, device.account, claims[i - 1], claims[i]))
    && (claims != [] ==> |claims| <= 1 + TextsBefore(inbounds, device.account, claims[|claims| - 1]))
  }

  ghost predicate Inv(s: State) {
    && |s.claims| == |s.tables.devices|
    && forall d :: 0 <= d < |s.claims| ==> ClaimsOk(s.tables.devices[d], s.claims[d], s.tables.inbounds)
  }

  lemma ClaimKeeps(s: State, d: nat, at: int)
    requires Inv(s) && d < |s.claims| && Due(s.tables, d, at)
    ensures ClaimsOk(Stamped(s.tables, d, at), s.claims[d] + [at], s.tables.inbounds)
  {
    var device, claims, inbounds := s.tables.devices[d], s.claims[d], s.tables.inbounds;
    assert ClaimsOk(device, claims, inbounds);
    if claims != [] {
      var last := claims[|claims| - 1];
      var i :| 0 <= i < |inbounds| && inbounds[i].account == device.account && inbounds[i].at > last;
      assert inbounds[i].at < at - DEVICE_CONVERSATION_ACTIVE_MS;
      TextBetweenCounts(inbounds, device.account, last, at, i);
      assert TextBetween(inbounds, device.account, last, at);
    }
  }

  lemma TextKeeps(device: Device, claims: seq<int>, inbounds: seq<Inbound>, text: Inbound)
    requires ClaimsOk(device, claims, inbounds)
    ensures ClaimsOk(device, claims, inbounds + [text])
  {
    var more := inbounds + [text];
    assert more[..|inbounds|] == inbounds;
    forall i | 0 < i < |claims| ensures TextBetween(more, device.account, claims[i - 1], claims[i]) {
      var k :| 0 <= k < |inbounds| && inbounds[k].account == device.account
        && claims[i - 1] < inbounds[k].at < claims[i] - DEVICE_CONVERSATION_ACTIVE_MS;
      assert more[k] == inbounds[k];
    }
  }

  lemma SweepKeepsInv(s: State, at: int)
    requires Inv(s)
    ensures Inv(Apply(s, Sweep(at)))
  {
    var t := Apply(s, Sweep(at));
    forall d | 0 <= d < |t.claims| ensures ClaimsOk(t.tables.devices[d], t.claims[d], t.tables.inbounds) {
      if Due(s.tables, d, at) { ClaimKeeps(s, d, at); }
    }
  }

  lemma InvKept(s: State, step: Step)
    requires Inv(s) && Enabled(s, step)
    ensures Inv(Apply(s, step))
  {
    match step {
      case Sweep(at) => SweepKeepsInv(s, at);
      case Text(account, at) =>
        forall d | 0 <= d < |s.claims|
          ensures ClaimsOk(s.tables.devices[d], s.claims[d], s.tables.inbounds + [Inbound(account, at)])
        {
          TextKeeps(s.tables.devices[d], s.claims[d], s.tables.inbounds, Inbound(account, at));
        }
      case _ =>
    }
  }

  lemma {:induction false} RunsKeepInv(s: State, steps: seq<Step>)
    requires Inv(s)
    ensures Exec(s, steps).Some? ==> Inv(Exec(s, steps).value)
  {
    if steps != [] {
      RunsKeepInv(s, steps[..|steps| - 1]);
      if Exec(s, steps).Some? {
        InvKept(Exec(s, steps[..|steps| - 1]).value, steps[|steps| - 1]);
      }
    }
  }

  // ------------------------------------------------------------ when a sweep claims, by the run

  /** Did the last configuration of the device turn AFK on, and leave it neither revoked nor disabled? */
  ghost predicate DrivenRemotely(steps: seq<Step>, d: nat) {
    && steps != []
    && var last := steps[|steps| - 1];
       if last.Configure? && last.device == d then last.afkOn && !last.revoked && !last.disabled
       else DrivenRemotely(steps[..|steps| - 1], d)
  }

  ghost function SessionsAfter(steps: seq<Step>): seq<Session> {
    if steps == [] then []
    else if steps[|steps| - 1].Sessions? then steps[|steps| - 1].sessions
    else SessionsAfter(steps[..|steps| - 1])
  }

  ghost function TextsIn(steps: seq<Step>): seq<Inbound> {
    if steps == [] then []
    else
      var last := steps[|steps| - 1];
      TextsIn(steps[..|steps| - 1]) + if last.Text? then [Inbound(last.account, last.at)] else []
  }

  ghost function BackfilledAt(steps: seq<Step>, d: nat): Option<int> {
    if steps == [] then None
    else
      var last := steps[|steps| - 1];
      if last.Backfill? && last.device == d then Some(last.at) else BackfilledAt(steps[..|steps| - 1], d)
  }

  /** When the device was last announced, or else backfilled. */
  ghost function LastNotice(steps: seq<Step>, claims: seq<int>, d: nat): Option<int> {
    if claims != [] then Some(claims[|claims| - 1]) else BackfilledAt(steps, d)
  }

  ghost predicate OwnSession(session: Session, d: nat) {
    session.device == d
  }

  ghost predicate OwnText(text: Inbound, account: nat) {
    text.account == account
  }

  /** It has sessions, and every one of them has been silent for the whole offline window. */
  ghost predicate DroppedOut(sessions: seq<Session>, d: nat, at: int) {
    && (exists i :: 0 <= i < |sessions| && OwnSession(sessions[i], d))
    && (forall i :: 0 <= i < |sessions| && OwnSession(sessions[i], d) ==>
          sessions[i].lastEventAt < at - DEVICE_OFFLINE_NOTIFY_MS)
  }

  /** The owner has not texted within the quiet window, but has since the last notice, if there was one. */
  ghost predicate Reachable(texts: seq<Inbound>, account: nat, notice: Option<int>, at: int) {
    && (forall i :: 0 <= i < |texts| && OwnText(texts[i], account) ==> texts[i].at < at - DEVICE_CONVERSATION_ACTIVE_MS)
    && (notice.Some? ==> exists i :: 0 <= i < |texts| && OwnText(texts[i], account) && texts[i].at > notice.value)
  }

  /** The device row holds what the run made of it. */
  ghost predicate FollowsRun(s: State, steps: seq<Step>, d: nat) {
    d < |s.tables.devices| == |s.claims| ==>
      var device := s.tables.devices[d];
      && (DrivenRemotely(steps, d) <==> device.afkOn && !device.revoked && !device.disabled)
      && device.lostNotifiedAt == LastNotice(steps, s.claims[d], d)
  }

  ghost predicate NotYet(s: State, steps: seq<Step>, d: nat) {
    d >= |s.tables.devices| ==> !DrivenRemotely(steps, d) && BackfilledAt(steps, d).None?
  }

  lemma {:induction false} RunsFollow(steps: seq<Step>, d: nat)
    requires Exec(INIT, steps).Some?
    ensures Inv(Exec(INIT, steps).value)
    ensures
      var s := Exec(INIT, steps).value;
      && FollowsRun(s, steps, d) && NotYet(s, steps, d)
      && s.tables.sessions == SessionsAfter(steps) && s.tables.inbounds == TextsIn(steps)
  {
    RunsKeepInv(INIT, steps);
    if steps != [] {
      RunsFollow(steps[..|steps| - 1], d);
    }
  }

  /**
   * Over every run, a sweep claims a device if and only if it was last configured as
   * driven remotely, has sessions all of which have been silent for three minutes, and
   * its owner has texted since the last notice but not in the last two minutes.
   */
  lemma {:induction false} ClaimedExactly(steps: seq<Step>, d: nat, at: int)
    requires Exec(INIT, steps).Some? && d < |Exec(INIT, steps).value.tables.devices|
    ensures
      var s := Exec(INIT, steps).value;
      && Enabled(s, Sweep(at)) && |s.claims| == |Apply(s, Sweep(at)).claims| == |s.tables.devices|
      && Apply(s, Sweep(at)).claims[d] == s.claims[d] +
           if && DrivenRemotely(steps, d) && DroppedOut(SessionsAfter(steps), d, at)
              && Reachable(TextsIn(steps), s.tables.devices[d].account, LastNotice(steps, s.claims[d], d), at)
           then [at] else []
  {
    RunsFollow(steps, d);
    var s := Exec(INIT, steps).value;
    DueByTheRows(s.tables, d, at);
  }

  lemma DueByTheRows(t: Tables, d: nat, at: int)
    requires d < |t.devices|
    ensures
      var device := t.devices[d];
      Due(t, d, at) <==>
        && device.afkOn && !device.revoked && !device.disabled
        && DroppedOut(t.sessions, d, at) && Reachable(t.inbounds, device.account, device.lostNotifiedAt, at)
  {
    if HasSessions(t, d) {
      var i :| 0 <= i < |t.sessions| && t.sessions[i].device == d;
      assert OwnSession(t.sessions[i], d);
    }
    var device := t.devices[d];
    if device.lostNotifiedAt.Some? && TextedAfter(t, device.account, device.lostNotifiedAt.value) {
      var i :| 0 <= i < |t.inbounds| && t.inbounds[i].account == device.account
        && t.inbounds[i].at > device.lostNotifiedAt.value;
      assert OwnText(t.inbounds[i], device.account);
    }
    if BeatSince(t, d, at - DEVICE_OFFLINE_NOTIFY_MS) {
      var i :| 0 <= i < |t.sessions| && t.sessions[i].device == d
        && t.sessions[i].lastEventAt >= at - DEVICE_OFFLINE_NOTIFY_MS;
      assert OwnSession(t.sessions[i], d);
    }
    if TextedSince(t, device.account, at - DEVICE_CONVERSATION_ACTIVE_MS) {
      var i :| 0 <= i < |t.inbounds| && t.inbounds[i].account == device.account
        && t.inbounds[i].at >= at - DEVICE_CONVERSATION_ACTIVE_MS;
      assert OwnText(t.inbounds[i], device.account);
    }
  }

  // ------------------------------------------------------------ main results

  /**
   * Over any run of beats, flaps, texts and concurrent sweeps: consecutive claims of one
   * device are more than two minutes apart, with a text of its owner in between.
   */
  lemma ClaimsNeedATextBetween(steps: seq<Step>, d: nat, i: nat)
    requires Exec(INIT, steps).Some?
    requires d < |Exec(INIT, steps).value.claims| && 0 < i < |Exec(INIT, steps).value.claims[d]|
    ensures
      var s := Exec(INIT, steps).value;
      && d < |s.tables.devices|
      && s.claims[d][i] > s.claims[d][i - 1] + DEVICE_CONVERSATION_ACTIVE_MS
      && exists k :: 0 <= k < |s.tables.inbounds| && s.tables.inbounds[k].account == s.tables.devices[d].account
           && s.claims[d][i - 1] < s.tables.inbounds[k].at < s.claims[d][i]
  {
    RunsKeepInv(INIT, steps);
    var s := Exec(INIT, steps).value;
    assert TextBetween(s.tables.inbounds, s.tables.devices[d].account, s.claims[d][i - 1], s.claims[d][i]);
  }

  /** And a device is announced at most once more than its owner has texted; without texts, at most once. */
  lemma NoticesBoundedByTexts(steps: seq<Step>, d: nat)
    requires Exec(INIT, steps).Some? && d < |Exec(INIT, steps).value.claims|
    ensures
      var s := Exec(INIT, steps).value;
      d < |s.tables.devices| && |s.claims[d]| <= 1 + Texts(s.tables.inbounds, s.tables.devices[d].account)
  {
    RunsKeepInv(INIT, steps);
    var s := Exec(INIT, steps).value;
    assert ClaimsOk(s.tables.devices[d], s.claims[d], s.tables.inbounds);
    if s.claims[d] != [] {
      var last := s.claims[d][|s.claims[d]| - 1];
      TextsBeforeGrows(s.tables.inbounds, s.tables.devices[d].account, last, last);
    }
  }

  /** A device that a sweep claims is not claimed by another sweep before a further text, whatever its time. */
  lemma SecondSweepClaimsNothing(s: State, d: nat, at: int, later: int)
    requires Inv(s) && d < |s.claims| && Due(s.tables, d, at)
    ensures !Due(Apply(s, Sweep(at)).tables, d, later)
  {
    var t := Apply(s, Sweep(at)).tables;
    assert t.devices[d] == Stamped(s.tables, d, at);
    forall i | 0 <= i < |t.inbounds| && t.inbounds[i].account == t.devices[d].account
      ensures t.inbounds[i].at <= at
    {
      assert s.tables.inbounds[i].at < at - DEVICE_CONVERSATION_ACTIVE_MS;
    }
  }
}
