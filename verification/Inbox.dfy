/**
 * At-least-once delivery of session-inbox rows: the server serves every undelivered row
 * on each flush, the device applies rows behind a bounded duplicate filter, and an ACK
 * stops the serving. Frames, ACKs and whole device processes may be lost at any point.
 */
module Inbox {
  import opened Common
  import Verdicts

  const APPLIED_INBOX_CAP: int := 500

  // ------------------------------------------------------------ the device's side

  /** A verdict that lacks its request id or its behavior can never be relayed. */
  predicate Unbound(row: Verdicts.InboxRow) {
    row.isVerdict && (row.requestId.None? || row.behavior.None?)
  }

  /**
   * What a send comes to: it lands, it is refused (Codex injection only), it throws, or it
   * lands and the write of the pending count after it throws.
   */
  datatype Outcome = Landed | Missed | Threw | CutShort

  /** What becomes of a row that is not filtered out, given what its send would do. */
  function Tried(row: Verdicts.InboxRow, appServer: bool, send: Outcome): Outcome {
    if Unbound(row) then if send.CutShort? then Threw else Landed
    else if send.Missed? && (row.isVerdict || !appServer) then Landed
    else send
  }

  /** By the send alone: may the row be taken for dealt with? A reply on the app-server path only if it landed. */
  ghost predicate Through(row: Verdicts.InboxRow, appServer: bool, send: Outcome) {
    if Unbound(row) then !send.CutShort?
    else if !row.isVerdict && appServer then send.Landed?
    else send.Landed? || send.Missed?
  }

  /** By the send alone: has the agent got the row? Only the app-server path can refuse one. */
  ghost predicate Arrives(row: Verdicts.InboxRow, appServer: bool, send: Outcome) {
    && !Unbound(row)
    && if !row.isVerdict && appServer then send.Landed? || send.CutShort? else !send.Threw?
  }

  /** The insertion-ordered filter after one more id: the oldest falls out past the cap. */
  function Remember(applied: seq<nat>, id: nat): seq<nat> {
    var longer := applied + [id];
    if |longer| > APPLIED_INBOX_CAP then longer[1..] else longer
  }

  /** What one row does: it aborts the frame, or leaves the filter and its history so, to be ACKed or not. */
  datatype RowResult = Aborts | Leaves(applied: seq<nat>, log: seq<nat>, ack: bool)

  /** A filtered row is not sent again, only ACKed again. */
  function AfterRow(applied: seq<nat>, log: seq<nat>, id: nat, outcome: Outcome): RowResult {
    if id in applied then Leaves(applied, log, true)
    else
      match outcome
      case Landed => Leaves(Remember(applied, id), log + [id], true)
      case Missed => Leaves(applied, log, false)
      case Threw => Aborts
      case CutShort => Aborts
  }

  /** Does the row reach an agent? Cut short, it does without entering the filter. */
  predicate Reaches(applied: seq<nat>, row: Verdicts.InboxRow, id: nat, outcome: Outcome) {
    id !in applied && !Unbound(row) && (outcome.Landed? || outcome.CutShort?)
  }

  /** A frame under way: the filter, its history, the ids to ACK, and whether a row threw. */
  datatype Progress = Progress(applied: seq<nat>, log: seq<nat>, confirmed: seq<nat>, threw: bool)

  function Advance(p: Progress, id: nat, outcome: Outcome): Progress {
    if p.threw then p
    else
      match AfterRow(p.applied, p.log, id, outcome)
      case Aborts => p.(threw := true)
      case Leaves(applied, log, ack) => Progress(applied, log, if ack then p.confirmed + [id] else p.confirmed, false)
  }

  /** The first n rows of a frame. */
  function AfterRows(p: Progress, ids: seq<nat>, outcomes: seq<Outcome>, n: nat): Progress
    requires n <= |ids| == |outcomes|
  {
    if n == 0 then p else Advance(AfterRows(p, ids, outcomes, n - 1), ids[n - 1], outcomes[n - 1])
  }

  lemma {:induction false} ThrowIsFinal(p: Progress, ids: seq<nat>, outcomes: seq<Outcome>, n: nat, m: nat)
    requires n <= m <= |ids| == |outcomes| && AfterRows(p, ids, outcomes, n).threw
    ensures AfterRows(p, ids, outcomes, m) == AfterRows(p, ids, outcomes, n)
  {
    if n < m { ThrowIsFinal(p, ids, outcomes, n, m - 1); }
  }

  function Outcomes(ids: seq<nat>, rows: seq<Verdicts.InboxRow>, appServer: bool, sends: seq<Outcome>): seq<Outcome>
    requires |sends| == |ids| && forall i :: 0 <= i < |ids| ==> ids[i] < |rows|
  {
    seq(|ids|, i requires 0 <= i < |ids| => Tried(rows[ids[i]], appServer, sends[i]))
  }

  /** The filter of a device process. */
  class Channel {
    var applied: seq<nat>
    ghost var log: seq<nat>

    ghost predicate Valid()
      reads this
    {
      applied == Latest(log) && Spaced(log)
    }

    constructor ()
      ensures Valid() && log == []
    {
      applied, log := [], [];
    }

    /** Remember an id that was let through; past the cap the oldest falls out. */
    method Note(id: nat)
      requires Valid() && id !in applied
      modifies this
      ensures Valid() && id in applied && applied == Remember(old(applied), id) && log == old(log) + [id]
    {
      RememberKeeps(log, id);
      applied := applied + [id];
      log := log + [id];
      if |applied| > APPLIED_INBOX_CAP { applied := applied[1..]; }
    }

    /** Applies one row: None when its send threw, otherwise whether to ACK it. */
    method ApplyInbox(id: nat, row: Verdicts.InboxRow, appServer: bool, send: Outcome) returns (ack: Option<bool>, sent: bool)
      requires Valid()
      modifies this
      ensures Valid()
      ensures sent <==> Reaches(old(applied), row, id, Tried(row, appServer, send))
      ensures
        match AfterRow(old(applied), old(log), id, Tried(row, appServer, send))
        case Aborts => ack.None? && applied == old(applied) && log == old(log)
        case Leaves(a, l, acked) => ack == Some(acked) && applied == a && log == l
      ensures id in old(applied) ==> ack == Some(true) && !sent && applied == old(applied)
      ensures id !in old(applied) ==>
                && (ack == Some(true) <==> Through(row, appServer, send))
                && (id in applied <==> Through(row, appServer, send))
                && (sent <==> Arrives(row, appServer, send))
      ensures id !in old(applied) && !row.isVerdict && appServer ==>
                && (ack == Some(true) <==> send.Landed?) && (ack == Some(false) <==> send.Missed?)
                && (sent <==> send.Landed? || send.CutShort?)
    {
      hide Valid, Remember;
      sent := false;
      if id in applied { return Some(true), sent; }
      if row.isVerdict {
        if row.requestId.Some? && row.behavior.Some? {
          if send.Threw? { return None, sent; }
          sent := true;
        }
      } else {
        if send.Threw? { return None, sent; }
        if appServer && send.Missed? { return Some(false), sent; }
        sent := true;
      }
      if send.CutShort? { return None, sent; }
      Note(id);
      ack := Some(true);
    }

    /** One frame: rows in order, up to the first that throws, which forfeits the frame's ACK. */
    method HandleFrame(ids: seq<nat>, rows: seq<Verdicts.InboxRow>, appServer: bool, sends: seq<Outcome>)
      returns (delivered: seq<nat>, threw: bool)
      requires Valid() && |sends| == |ids| && forall i :: 0 <= i < |ids| ==> ids[i] < |rows|
      modifies this
      ensures Valid()
      ensures
        var p := AfterRows(Progress(old(applied), old(log), [], false), ids, Outcomes(ids, rows, appServer, sends), |ids|);
        threw == p.threw && applied == p.applied && log == p.log && delivered == if threw then [] else p.confirmed
    {
      hide Through, Arrives;
      delivered, threw := [], false;
      ghost var start := Progress(applied, log, [], false);
      ghost var outcomes := Outcomes(ids, rows, appServer, sends);
      for i := 0 to |ids|
        invariant Valid() && !threw
        invariant AfterRows(start, ids, outcomes, i) == Progress(applied, log, delivered, false)
      {
        var ack, _ := ApplyInbox(ids[i], rows[ids[i]], appServer, sends[i]);
        if ack.None? {
          ThrowIsFinal(start, ids, outcomes, i + 1, |ids|);
          return [], true;
        }
        if ack.value { delivered := delivered + [ids[i]]; }
      }
    }
  }

  /** What the filter holds after a history: its latest entries, all of them while they fit. */
  function Latest(log: seq<nat>): seq<nat> {
    if |log| <= APPLIED_INBOX_CAP then log else log[|log| - APPLIED_INBOX_CAP..]
  }

  /** Every entry got past the filter of its time. */
  predicate Spaced(log: seq<nat>) {
    log == [] || (log[|log| - 1] !in Latest(log[..|log| - 1]) && Spaced(log[..|log| - 1]))
  }

  lemma RememberKeeps(log: seq<nat>, id: nat)
    ensures Latest(log + [id]) == Remember(Latest(log), id)
    ensures Spaced(log) && id !in Latest(log) ==> Spaced(log + [id])
  {
    assert (log + [id])[..|log|] == log;
    assert Latest(log + [id]) == Remember(Latest(log), id);
  }

  /** No id occurs twice within any cap-and-one consecutive entries. */
  lemma {:induction false} SpacedApart(log: seq<nat>, i: nat, j: nat)
    requires Spaced(log) && i < j < |log| && j - i <= APPLIED_INBOX_CAP
    ensures log[i] != log[j]
  {
    var before := log[..|log| - 1];
    if j < |before| {
      SpacedApart(before, i, j);
    } else {
      assert before[i] == Latest(before)[|Latest(before)| - (j - i)];
    }
  }

  // ------------------------------------------------------------ the whole exchange

  /** A frame being handled: the rows still to do, and those to ACK. */
  datatype Reading = Idle | Reading(left: seq<nat>, confirmed: seq<nat>)

  /**
   * Server rows oldest first (an id is its position), frames under way, the device
   * process, and every ACK ever posted. `sent` remembers what reached an agent, ever;
   * `sends` and `cuts` count what this process sent, and what of it was cut short.
   */
  datatype State = State(
    rows: seq<Verdicts.InboxRow>, delivered: set<nat>, pipe: seq<seq<nat>>,
    applied: seq<nat>, reading: Reading, log: seq<nat>,
    acks: seq<seq<nat>>, sent: set<nat>, sends: multiset<nat>, cuts: multiset<nat>)

  datatype Step =
    | Queue(row: Verdicts.InboxRow)
    | Flush
    | Disconnect
    | Receive
    | Handle(appServer: bool, send: Outcome)
    | Finish
    | AckLands(k: nat)
    | Restart

  /** The rows of the first n without a delivery mark, oldest first. */
  function Undelivered(n: nat, delivered: set<nat>): seq<nat> {
    if n == 0 then []
    else Undelivered(n - 1, delivered) + if n - 1 in delivered then [] else [n - 1]
  }

  function Elements(ids: seq<nat>): set<nat> {
    set id | id in ids
  }

  predicate Enabled(s: State, step: Step) {
    match step
    case Receive => s.reading.Idle? && s.pipe != []
    case Handle(_, _) => s.reading.Reading? && s.reading.left != [] && s.reading.left[0] < |s.rows|
    case Finish => s.reading.Reading? && s.reading.left == []
    case AckLands(k) => k < |s.acks|
    case _ => true
  }

  function HandleNext(s: State, appServer: bool, send: Outcome): State
    requires Enabled(s, Handle(appServer, send))
  {
    var id := s.reading.left[0];
    var outcome := Tried(s.rows[id], appServer, send);
    var p := Advance(Progress(s.applied, s.log, s.reading.confirmed, false), id, outcome);
    var reaches := Reaches(s.applied, s.rows[id], id, outcome);
    s.(reading := if p.threw then Idle else Reading(s.reading.left[1..], p.confirmed),
       applied := p.applied, log := p.log,
       sent := if reaches then s.sent + {id} else s.sent,
       sends := if reaches then s.sends + multiset{id} else s.sends,
       cuts := if reaches && p.threw then s.cuts + multiset{id} else s.cuts)
  }

  function Apply(s: State, step: Step): State
    requires Enabled(s, step)
  {
    match step
    case Queue(row) => s.(rows := s.rows + [row])
    case Flush =>
      var items := Undelivered(|s.rows|, s.delivered);
      if items == [] then s else s.(pipe := s.pipe + [items])
    case Disconnect => s.(pipe := [])
    case Receive => s.(pipe := s.pipe[1..], reading := Reading(s.pipe[0], []))
    case Handle(appServer, send) => HandleNext(s, appServer, send)
    case Finish =>
      s.(reading := Idle, acks := if s.reading.confirmed == [] then s.acks else s.acks + [s.reading.confirmed])
    case AckLands(k) => s.(delivered := s.delivered + Elements(s.acks[k]))
    case Restart => s.(pipe := [], reading := Idle, applied := [], log := [], sends := multiset{}, cuts := multiset{})
  }

  const INIT: State := State([], {}, [], [], Idle, [], [], {}, multiset{}, multiset{})

  function Exec(s: State, steps: seq<Step>): Option<State> {
    if steps == [] then Some(s)
    else
      match Exec(s, steps[..|steps| - 1])
      case None => None
      case Some(t) => if Enabled(t, steps[|steps| - 1]) then Some(Apply(t, steps[|steps| - 1])) else None
  }

  // ------------------------------------------------------------ what is served

  /** A flush serves exactly the undelivered rows, each once, oldest first. */
  lemma {:induction false} ServesAllUndelivered(n: nat, delivered: set<nat>, id: nat, i: nat, j: nat)
    ensures
      var items := Undelivered(n, delivered);
      && (id in items <==> id < n && id !in delivered)
      && (i < j < |items| ==> items[i] < items[j])
      && (i < |items| ==> items[i] < n)
  {
    if n > 0 {
      ServesAllUndelivered(n - 1, delivered, id, i, j);
      ServesAllUndelivered(n - 1, delivered, id, i, i);
    }
  }

  lemma ServesOnlyKnown(n: nat, delivered: set<nat>)
    ensures forall i :: 0 <= i < |Undelivered(n, delivered)| ==> Undelivered(n, delivered)[i] < n
  {
    var items := Undelivered(n, delivered);
    forall i | 0 <= i < |items| ensures items[i] < n { ServesAllUndelivered(n, delivered, 0, i, i); }
  }

  // ------------------------------------------------------------ invariants

  /** Did the row reach an agent, or can it never do so? */
  predicate Settled(rows: seq<Verdicts.InboxRow>, sent: set<nat>, id: nat) {
    id < |rows| && (id in sent || Unbound(rows[id]))
  }

  ghost predicate AllSettled(rows: seq<Verdicts.InboxRow>, sent: set<nat>, ids: seq<nat>) {
    forall i :: 0 <= i < |ids| ==> Settled(rows, sent, ids[i])
  }

  ghost predicate Known(rows: seq<Verdicts.InboxRow>, ids: seq<nat>) {
    forall i :: 0 <= i < |ids| ==> ids[i] < |rows|
  }

  ghost predicate ServerInv(rows: seq<Verdicts.InboxRow>, sent: set<nat>, delivered: set<nat>, acks: seq<seq<nat>>) {
    && (forall k :: 0 <= k < |acks| ==> AllSettled(rows, sent, acks[k]))
    && (forall id :: id in delivered ==> Settled(rows, sent, id))
  }

  ghost predicate DeviceInv(rows: seq<Verdicts.InboxRow>, sent: set<nat>, log: seq<nat>, reading: Reading) {
    && AllSettled(rows, sent, log)
    && (reading.Reading? ==> Known(rows, reading.left) && AllSettled(rows, sent, reading.confirmed))
  }

  ghost predicate PipeInv(rows: seq<Verdicts.InboxRow>, pipe: seq<seq<nat>>) {
    forall k :: 0 <= k < |pipe| ==> Known(rows, pipe[k])
  }

  /** Whatever was sent is in the log or was cut short. */
  ghost predicate SendsInv(log: seq<nat>, sends: multiset<nat>, cuts: multiset<nat>) {
    forall id :: sends[id] <= multiset(log)[id] + cuts[id]
  }

  ghost predicate Inv(s: State) {
    && s.applied == Latest(s.log) && Spaced(s.log) && SendsInv(s.log, s.sends, s.cuts)
    && ServerInv(s.rows, s.sent, s.delivered, s.acks)
    && DeviceInv(s.rows, s.sent, s.log, s.reading)
    && PipeInv(s.rows, s.pipe)
  }

  /** More rows and more sends leave everything settled as it was. */
  lemma SettledStays(rows: seq<Verdicts.InboxRow>, more: seq<Verdicts.InboxRow>, sent: set<nat>, moreSent: set<nat>, ids: seq<nat>)
    requires rows <= more && sent <= moreSent
    ensures AllSettled(rows, sent, ids) ==> AllSettled(more, moreSent, ids)
    ensures Known(rows, ids) ==> Known(more, ids)
  {
  }

  lemma ServerGrows(s: State, rows: seq<Verdicts.InboxRow>, sent: set<nat>)
    requires Inv(s) && s.rows <= rows && s.sent <= sent
    ensures ServerInv(rows, sent, s.delivered, s.acks)
  {
    forall k | 0 <= k < |s.acks| ensures AllSettled(rows, sent, s.acks[k]) {
      SettledStays(s.rows, rows, s.sent, sent, s.acks[k]);
    }
  }

  lemma DeviceGrows(s: State, rows: seq<Verdicts.InboxRow>, sent: set<nat>)
    requires Inv(s) && s.rows <= rows && s.sent <= sent
    ensures DeviceInv(rows, sent, s.log, s.reading) && PipeInv(rows, s.pipe)
  {
    SettledStays(s.rows, rows, s.sent, sent, s.log);
    if s.reading.Reading? {
      SettledStays(s.rows, rows, s.sent, sent, s.reading.left);
      SettledStays(s.rows, rows, s.sent, sent, s.reading.confirmed);
    }
    forall k | 0 <= k < |s.pipe| ensures Known(rows, s.pipe[k]) {
      SettledStays(s.rows, rows, s.sent, sent, s.pipe[k]);
    }
  }

  /** A row in the filter was let through before. */
  lemma FilteredIsSettled(s: State, id: nat)
    requires Inv(s) && id in s.applied
    ensures Settled(s.rows, s.sent, id)
  {
    var i :| 0 <= i < |s.applied| && s.applied[i] == id;
    assert s.log[|s.log| - |s.applied| + i] == id;
  }

  /** A row that landed is remembered and confirmed, and one that reaches the agent is counted. */
  lemma LandedShape(s: State, appServer: bool, send: Outcome)
    requires Enabled(s, Handle(appServer, send)) && s.reading.left[0] !in s.applied
    requires Tried(s.rows[s.reading.left[0]], appServer, send).Landed?
    ensures
      var t, id := HandleNext(s, appServer, send), s.reading.left[0];
      && t.rows == s.rows && t.delivered == s.delivered && t.acks == s.acks && t.pipe == s.pipe && t.cuts == s.cuts
      && t.applied == Remember(s.applied, id) && t.log == s.log + [id]
      && t.reading == Reading(s.reading.left[1..], s.reading.confirmed + [id])
      && s.sent <= t.sent && (id in t.sent || Unbound(s.rows[id]))
      && (t.sends == s.sends || t.sends == s.sends + multiset{id})
  {
  }

  lemma LandedKeepsDevice(rows: seq<Verdicts.InboxRow>, sent: set<nat>, log: seq<nat>, left: seq<nat>, confirmed: seq<nat>)
    requires left != [] && DeviceInv(rows, sent, log, Reading(left, confirmed)) && Settled(rows, sent, left[0])
    ensures DeviceInv(rows, sent, log + [left[0]], Reading(left[1..], confirmed + [left[0]]))
  {
  }

  lemma LandedKeepsInv(s: State, appServer: bool, send: Outcome)
    requires Inv(s) && Enabled(s, Handle(appServer, send)) && s.reading.left[0] !in s.applied
    requires Tried(s.rows[s.reading.left[0]], appServer, send).Landed?
    ensures Inv(HandleNext(s, appServer, send))
  {
    hide SendsInv, Spaced, Latest, ServerInv, PipeInv, DeviceInv, Remember, HandleNext;
    var id := s.reading.left[0];
    var t := HandleNext(s, appServer, send);
    LandedShape(s, appServer, send);
    RememberKeeps(s.log, id);
    ServerGrows(s, t.rows, t.sent);
    DeviceGrows(s, t.rows, t.sent);
    LandedKeepsDevice(t.rows, t.sent, s.log, s.reading.left, s.reading.confirmed);
    LandedKeepsSends(s.log, s.sends, t.sends, s.cuts, id);
  }

  lemma LandedKeepsSends(log: seq<nat>, sends: multiset<nat>, more: multiset<nat>, cuts: multiset<nat>, id: nat)
    requires SendsInv(log, sends, cuts) && (more == sends || more == sends + multiset{id})
    ensures SendsInv(log + [id], more, cuts)
  {
    assert multiset(log + [id]) == multiset(log) + multiset{id};
  }

  lemma CutShortKeepsInv(s: State, appServer: bool, send: Outcome)
    requires Inv(s) && Enabled(s, Handle(appServer, send)) && s.reading.left[0] !in s.applied
    requires Tried(s.rows[s.reading.left[0]], appServer, send).CutShort?
    ensures Inv(HandleNext(s, appServer, send))
  {
    var t := HandleNext(s, appServer, send);
    ServerGrows(s, t.rows, t.sent);
    DeviceGrows(s, t.rows, t.sent);
  }

  lemma HandleKeepsInv(s: State, appServer: bool, send: Outcome)
    requires Inv(s) && Enabled(s, Handle(appServer, send))
    ensures Inv(HandleNext(s, appServer, send))
  {
    var id := s.reading.left[0];
    if id in s.applied {
      FilteredIsSettled(s, id);
    } else if Tried(s.rows[id], appServer, send).Landed? {
      LandedKeepsInv(s, appServer, send);
    } else if Tried(s.rows[id], appServer, send).CutShort? {
      CutShortKeepsInv(s, appServer, send);
    }
  }

  lemma AckKeepsInv(s: State, k: nat)
    requires Inv(s) && k < |s.acks|
    ensures Inv(Apply(s, AckLands(k)))
  {
    assert AllSettled(s.rows, s.sent, s.acks[k]);
  }

  lemma FlushKeepsInv(s: State)
    requires Inv(s)
    ensures Inv(Apply(s, Flush))
  {
    ServesOnlyKnown(|s.rows|, s.delivered);
  }

  lemma InvKept(s: State, step: Step)
    requires Inv(s) && Enabled(s, step)
    ensures Inv(Apply(s, step))
  {
    match step {
      case Handle(appServer, send) => HandleKeepsInv(s, appServer, send);
      case Flush => FlushKeepsInv(s);
      case AckLands(k) => AckKeepsInv(s, k);
      case Queue(row) =>
        ServerGrows(s, s.rows + [row], s.sent);
        DeviceGrows(s, s.rows + [row], s.sent);
      case _ =>
    }
  }

  lemma {:induction false} RunsKeepInv(s: State, steps: seq<Step>)
    requires Inv(s)
    ensures Exec(s, steps).Some? ==> Inv(Exec(s, steps).value)
  {
    if steps != [] {
      RunsKeepInv(s, steps[..|steps| - 1]);
      if Exec(s, steps).Some? {
        InvKept(Exec(s, steps[..|steps| - 1]).value, steps[|steps| - 1]);
      }
    }
  }

  // ------------------------------------------------------------ main results

  /** On every run, a delivery mark means the row reached an agent or was an unbound verdict. */
  lemma DeliveredMeansApplied(steps: seq<Step>, id: nat)
    requires Exec(INIT, steps).Some?
    ensures
      var s := Exec(INIT, steps).value;
      id in s.delivered ==> id < |s.rows| && (id in s.sent || Unbound(s.rows[id]))
  {
    RunsKeepInv(INIT, steps);
  }

  // ------------------------------------------------------------ by the sends themselves

  /** Does this step handle this row, past the filter? */
  ghost predicate Handles(s: State, step: Step, id: nat) {
    step.Handle? && Enabled(s, step) && s.reading.left[0] == id && id !in s.applied
  }

  /** Handling a row past the filter does what the send alone decides. */
  lemma HandledBySend(s: State, step: Step, id: nat)
    requires Handles(s, step, id)
    ensures
      var t, row := Apply(s, step), s.rows[id];
      && (Through(row, step.appServer, step.send) ==>
            && t.log == s.log + [id] && t.reading == Reading(s.reading.left[1..], s.reading.confirmed + [id]))
      && (!Through(row, step.appServer, step.send) ==>
            && t.log == s.log && t.applied == s.applied
            && (t.reading.Idle? || t.reading == Reading(s.reading.left[1..], s.reading.confirmed)))
      && t.sends == if Arrives(row, step.appServer, step.send) then s.sends + multiset{id} else s.sends
  {
  }

  /** The rows that some send, past the filter, has brought through by this step. */
  ghost function BroughtThrough(s: State, step: Step): set<nat> {
    if step.Handle? && Enabled(s, step) && s.reading.left[0] !in s.applied
      && Through(s.rows[s.reading.left[0]], step.appServer, step.send)
    then {s.reading.left[0]} else {}
  }

  ghost function ThroughOn(steps: seq<Step>): set<nat> {
    if steps == [] then {}
    else
      var before := steps[..|steps| - 1];
      ThroughOn(before) + if Exec(INIT, before).Some? then BroughtThrough(Exec(INIT, before).value, steps[|steps| - 1]) else {}
  }

  ghost predicate AllIn(ids: seq<nat>, through: set<nat>) {
    forall i :: 0 <= i < |ids| ==> ids[i] in through
  }

  /** Whatever is remembered, to be ACKed, ACKed or marked has come through. */
  ghost predicate AllThrough(s: State, through: set<nat>) {
    && AllIn(s.log, through) && AllIn(s.applied, through)
    && (s.reading.Reading? ==> AllIn(s.reading.confirmed, through))
    && (forall k :: 0 <= k < |s.acks| ==> AllIn(s.acks[k], through))
    && s.delivered <= through
  }

  lemma MoreThrough(s: State, through: set<nat>, more: set<nat>)
    requires AllThrough(s, through) && through <= more
    ensures AllThrough(s, more)
  {
  }

  lemma HandleAllThrough(s: State, step: Step, through: set<nat>)
    requires step.Handle? && Enabled(s, step) && AllThrough(s, through) && BroughtThrough(s, step) <= through
    ensures AllThrough(Apply(s, step), through)
  {
    var id := s.reading.left[0];
    if id !in s.applied {
      hide Through;
      HandledBySend(s, step, id);
    }
  }

  lemma OtherStepsAllThrough(s: State, step: Step, through: set<nat>)
    requires !step.Handle? && Enabled(s, step) && AllThrough(s, through)
    ensures AllThrough(Apply(s, step), through)
  {
    if step.AckLands? { assert AllIn(s.acks[step.k], through); }
  }

  lemma AllThroughKept(s: State, step: Step, through: set<nat>)
    requires Enabled(s, step) && AllThrough(s, through)
    ensures AllThrough(Apply(s, step), through + BroughtThrough(s, step))
  {
    hide AllThrough, BroughtThrough;
    var more := through + BroughtThrough(s, step);
    MoreThrough(s, through, more);
    if step.Handle? { HandleAllThrough(s, step, more); } else { OtherStepsAllThrough(s, step, more); }
  }

  lemma {:induction false} RunsAllThrough(steps: seq<Step>)
    requires Exec(INIT, steps).Some?
    ensures AllThrough(Exec(INIT, steps).value, ThroughOn(steps))
  {
    if steps != [] {
      var before := steps[..|steps| - 1];
      RunsAllThrough(before);
      AllThroughKept(Exec(INIT, before).value, steps[|steps| - 1], ThroughOn(before));
    }
  }

  lemma RowsOnlyGrow(s: State, step: Step)
    requires Enabled(s, step)
    ensures s.rows <= Apply(s, step).rows
  {
  }

  /** Step n sends that very row past the filter, and its own send comes through: on the app-server path it lands. */
  ghost predicate SentThroughAt(steps: seq<Step>, n: nat, id: nat)
    requires Exec(INIT, steps).Some?
  {
    var rows := Exec(INIT, steps).value.rows;
    && n < |steps| && Exec(INIT, steps[..n]).Some? && Handles(Exec(INIT, steps[..n]).value, steps[n], id)
    && id < |rows| && Through(rows[id], steps[n].appServer, steps[n].send)
    && (!rows[id].isVerdict && steps[n].appServer ==> steps[n].send.Landed?)
  }

  lemma {:induction false} ThroughBySend(steps: seq<Step>, id: nat) returns (n: nat)
    requires Exec(INIT, steps).Some? && id in ThroughOn(steps)
    ensures SentThroughAt(steps, n, id)
  {
    var before := steps[..|steps| - 1];
    if id in ThroughOn(before) {
      n := ThroughBySend(before, id);
      assert before[..n] == steps[..n];
    } else {
      n := |steps| - 1;
    }
    RowsOnlyGrow(Exec(INIT, before).value, steps[|steps| - 1]);
  }

  /**
   * Over every run, a delivery mark goes back to a send of that very row that came
   * through; on the app-server path to one that landed.
   */
  lemma {:induction false} DeliveredMeansSent(steps: seq<Step>, id: nat)
    requires Exec(INIT, steps).Some? && id in Exec(INIT, steps).value.delivered
    ensures exists n: nat :: SentThroughAt(steps, n, id)
  {
    RunsAllThrough(steps);
    var n := ThroughBySend(steps, id);
  }

  /** If step n sends the row, then on the app-server path and without landing. */
  ghost predicate NotLandedAt(steps: seq<Step>, n: nat, id: nat)
    requires n < |steps|
  {
    Exec(INIT, steps[..n]).Some? && Handles(Exec(INIT, steps[..n]).value, steps[n], id) ==>
      steps[n].appServer && !steps[n].send.Landed?
  }

  lemma SentByLanding(steps: seq<Step>, n: nat, id: nat)
    requires n < |steps| && Exec(INIT, steps[..n]).Some? && Handles(Exec(INIT, steps[..n]).value, steps[n], id)
    requires steps[n].appServer ==> steps[n].send.Landed?
    ensures !NotLandedAt(steps, n, id)
  {
  }

  /** So a reply whose every send on that path was refused, threw or was cut short stays to be served. */
  lemma RefusedReplyStaysUndelivered(steps: seq<Step>, id: nat)
    requires Exec(INIT, steps).Some? && id < |Exec(INIT, steps).value.rows|
    requires !Exec(INIT, steps).value.rows[id].isVerdict
    requires forall n: nat :: n < |steps| ==> NotLandedAt(steps, n, id)
    ensures id !in Exec(INIT, steps).value.delivered
    ensures id in Undelivered(|Exec(INIT, steps).value.rows|, Exec(INIT, steps).value.delivered)
  {
    var s := Exec(INIT, steps).value;
    if id in s.delivered {
      DeliveredMeansSent(steps, id);
      var n: nat :| SentThroughAt(steps, n, id);
      SentByLanding(steps, n, id);
    }
    ServesAllUndelivered(|s.rows|, s.delivered, id, 0, 0);
  }

  // ------------------------------------------------------------ past the filter again

  /**
   * Within one device process the filter lets a row through again only after at least
   * 500 others, all different from it and from one another.
   */
  lemma ReappliedOnlyAfterEviction(steps: seq<Step>, i: nat, j: nat, a: nat, b: nat)
    requires Exec(INIT, steps).Some?
    requires i < j < |Exec(INIT, steps).value.log|
    requires Exec(INIT, steps).value.log[i] == Exec(INIT, steps).value.log[j]
    ensures
      var log := Exec(INIT, steps).value.log;
      i + APPLIED_INBOX_CAP < j && (i <= a < b <= i + APPLIED_INBOX_CAP ==> log[a] != log[b])
  {
    RunsKeepInv(INIT, steps);
    var log := Exec(INIT, steps).value.log;
    if j - i <= APPLIED_INBOX_CAP { SpacedApart(log, i, j); }
    if i <= a < b <= i + APPLIED_INBOX_CAP { SpacedApart(log, a, b); }
  }

  lemma {:induction false} FindEntry(log: seq<nat>, id: nat) returns (i: nat)
    requires multiset(log)[id] >= 1
    ensures i < |log| && log[i] == id && multiset(log[..i])[id] == multiset(log)[id] - 1
  {
    var n := |log| - 1;
    assert log == log[..n] + [log[n]];
    if log[n] == id {
      i := n;
    } else {
      i := FindEntry(log[..n], id);
      assert log[..n][..i] == log[..i];
    }
  }

  /**
   * So a row reaches the agent twice within one process only if a send of it was cut
   * short before the filter could note it, or after 500 others had been applied.
   */
  lemma SentTwiceOnlyAfterEviction(steps: seq<Step>, id: nat) returns (i: nat, j: nat)
    requires Exec(INIT, steps).Some?
    requires Exec(INIT, steps).value.sends[id] >= 2 && Exec(INIT, steps).value.cuts[id] == 0
    ensures
      var log := Exec(INIT, steps).value.log;
      i + APPLIED_INBOX_CAP < j < |log| && log[i] == id && log[j] == id
  {
    RunsKeepInv(INIT, steps);
    var log := Exec(INIT, steps).value.log;
    j := FindEntry(log, id);
    i := FindEntry(log[..j], id);
    ReappliedOnlyAfterEviction(steps, i, j, 0, 0);
  }

  /** No copy of the row is on its way to the device, or waiting there. */
  ghost predicate Clear(s: State, id: nat) {
    && (forall k :: 0 <= k < |s.pipe| ==> id !in s.pipe[k])
    && (s.reading.Reading? ==> id !in s.reading.left)
  }

  /** Is the row marked delivered, with no copy of it still on its way? */
  ghost predicate Done(s: State, id: nat) {
    id in s.delivered && Clear(s, id)
  }

  lemma DoneStep(s: State, step: Step, id: nat)
    requires Done(s, id) && Enabled(s, step)
    ensures Done(Apply(s, step), id)
    ensures id in Apply(s, step).log ==> id in s.log
    ensures Apply(s, step).sends[id] <= s.sends[id]
  {
    if step.Flush? { ServesAllUndelivered(|s.rows|, s.delivered, id, 0, 0); }
  }

  /** Once its mark is set and old frames are gone, a row is never applied or sent again, not even after a restart. */
  lemma {:induction false} DoneIsFinal(s: State, steps: seq<Step>, id: nat)
    requires Done(s, id) && Exec(s, steps).Some?
    ensures Done(Exec(s, steps).value, id)
    ensures id in Exec(s, steps).value.log ==> id in s.log
    ensures Exec(s, steps).value.sends[id] <= s.sends[id]
  {
    if steps != [] {
      DoneIsFinal(s, steps[..|steps| - 1], id);
      DoneStep(Exec(s, steps[..|steps| - 1]).value, steps[|steps| - 1], id);
    }
  }

  // ------------------------------------------------------------ recovery

  function Landings(n: nat): seq<Step> {
    if n == 0 then [] else Landings(n - 1) + [Handle(false, Landed)]
  }

  lemma {:induction false} ExecConcat(s: State, a: seq<Step>, b: seq<Step>)
    requires Exec(s, a).Some?
    ensures Exec(s, a + b) == Exec(Exec(s, a).value, b)
  {
    if b == [] {
      assert a + b == a;
    } else {
      ExecConcat(s, a, b[..|b| - 1]);
      assert (a + b)[..|a + b| - 1] == a + b[..|b| - 1];
    }
  }

  lemma Then(start: State, steps: seq<Step>, s: State, step: Step)
    requires Exec(start, steps) == Some(s) && Enabled(s, step)
    ensures Exec(start, steps + [step]) == Some(Apply(s, step))
  {
    assert (steps + [step])[..|steps|] == steps;
  }

  predicate ServerSame(s: State, t: State) {
    t.rows == s.rows && t.delivered == s.delivered && t.acks == s.acks
  }

  lemma RowHandled(start: State, steps: seq<Step>, s: State) returns (t: State)
    requires Exec(start, steps) == Some(s) && s.reading.Reading? && s.reading.left != [] && s.reading.left[0] < |s.rows|
    ensures t == Apply(s, Handle(false, Landed)) && Exec(start, steps + [Handle(false, Landed)]) == Some(t)
    ensures ServerSame(s, t)
    ensures t.reading == Reading(s.reading.left[1..], s.reading.confirmed + [s.reading.left[0]])
  {
    t := Apply(s, Handle(false, Landed));
    Then(start, steps, s, Handle(false, Landed));
  }

  lemma TakeOneMore(left: seq<nat>, n: nat)
    requires 0 < n <= |left|
    ensures left[n - 1..][1..] == left[n..] && left[..n - 1] + [left[n - 1..][0]] == left[..n]
  {
  }

  /** Handling a frame without a failure confirms all of it, in order. */
  lemma {:induction false} FrameHandled(s: State, n: nat) returns (t: State)
    requires s.reading.Reading? && s.reading.confirmed == [] && n <= |s.reading.left| && Known(s.rows, s.reading.left)
    ensures Exec(s, Landings(n)) == Some(t) && ServerSame(s, t)
    ensures t.reading == Reading(s.reading.left[n..], s.reading.left[..n])
  {
    hide Exec, HandleNext;
    if n == 0 {
      ExecNothing(s);
      t := s;
    } else {
      var u := FrameHandled(s, n - 1);
      t := RowHandled(s, Landings(n - 1), u);
      TakeOneMore(s.reading.left, n);
    }
  }

  /** One round in which nothing fails: serve, receive, apply all, ACK. */
  function CleanRound(s: State): seq<Step> {
    [Disconnect, Flush, Receive] + Landings(|Undelivered(|s.rows|, s.delivered)|) + [Finish, AckLands(|s.acks|)]
  }

  lemma ChainRuns(s: State, a: seq<Step>, u: State, b: seq<Step>, v: State, c: seq<Step>, w: State)
    requires Exec(s, a) == Some(u) && Exec(u, b) == Some(v) && Exec(v, c) == Some(w)
    ensures Exec(s, a + b + c) == Some(w)
  {
    ExecConcat(s, a, b);
    ExecConcat(s, a + b, c);
  }

  lemma CleanRoundRun(s: State)
    requires s.reading.Idle? && Undelivered(|s.rows|, s.delivered) != []
    ensures
      var t := Exec(s, CleanRound(s));
      && t.Some? && t.value.rows == s.rows
      && t.value.delivered == s.delivered + Elements(Undelivered(|s.rows|, s.delivered))
  {
    var items := Undelivered(|s.rows|, s.delivered);
    var u := s.(pipe := [], reading := Reading(items, []));
    ServesOnlyKnown(|s.rows|, s.delivered);
    OpeningRun(s);
    var v := FrameHandled(u, |items|);
    assert items[..|items|] == items;
    ClosingRun(v);
    ChainRuns(s, [Disconnect, Flush, Receive], u, Landings(|items|), v,
      [Finish, AckLands(|v.acks|)], Exec(v, [Finish, AckLands(|v.acks|)]).value);
  }

  /**
   * Nothing is ever lost for good: from every reachable state with an idle device, one
   * round without a failure leaves no row undelivered.
   */
  lemma CleanRoundDeliversAll(s: State, id: nat)
    requires Inv(s) && s.reading.Idle? && Undelivered(|s.rows|, s.delivered) != []
    ensures
      var t := Exec(s, CleanRound(s));
      t.Some? && t.value.rows == s.rows && (id < |s.rows| ==> id in t.value.delivered && Settled(s.rows, t.value.sent, id))
  {
    CleanRoundRun(s);
    RunsKeepInv(s, CleanRound(s));
    ServesAllUndelivered(|s.rows|, s.delivered, id, 0, 0);
  }

  lemma OpeningRun(s: State)
    requires s.reading.Idle? && Undelivered(|s.rows|, s.delivered) != []
    ensures Exec(s, [Disconnect, Flush, Receive]) ==
            Some(s.(pipe := [], reading := Reading(Undelivered(|s.rows|, s.delivered), [])))
  {
    var all := [Disconnect, Flush, Receive];
    assert all[..2] == [Disconnect, Flush] && all[..2][..1] == [Disconnect] && all[..2][..1][..0] == [];
    assert Exec(s, [Disconnect]) == Some(s.(pipe := []));
    var items := Undelivered(|s.rows|, s.delivered);
    var empty: seq<seq<nat>> := [];
    assert empty + [items] == [items] && [items][1..] == empty;
    assert Exec(s, [Disconnect, Flush]) == Some(s.(pipe := [Undelivered(|s.rows|, s.delivered)]));
  }

  lemma ClosingRun(v: State)
    requires v.reading.Reading? && v.reading.left == [] && v.reading.confirmed != []
    ensures Exec(v, [Finish, AckLands(|v.acks|)]) ==
            Some(v.(reading := Idle, acks := v.acks + [v.reading.confirmed],
                    delivered := v.delivered + Elements(v.reading.confirmed)))
  {
    var all := [Finish, AckLands(|v.acks|)];
    assert all[..1] == [Finish] && all[..1][..0] == [];
    assert Exec(v, [Finish]) == Some(v.(reading := Idle, acks := v.acks + [v.reading.confirmed]));
  }

  // ------------------------------------------------------------ sent again

  /** A run of one device process on which the row reaches the agent once more. */
  ghost predicate SendsAgain(s: State, steps: seq<Step>, id: nat) {
    && (forall i :: 0 <= i < |steps| ==> !steps[i].Restart?)
    && Exec(s, steps).Some? && Exec(s, steps).value.sends[id] > s.sends[id]
  }

  /** What handling the next row, with a send that lands, does for a row of interest. */
  lemma RowReaches(s: State, id: nat)
    requires Enabled(s, Handle(false, Landed)) && id !in s.applied
    ensures
      var t := Apply(s, Handle(false, Landed));
      && (s.reading.left[0] != id ==> t.sends[id] == s.sends[id] && id !in t.applied)
      && (s.reading.left[0] == id && !Unbound(s.rows[id]) ==> t.sends[id] == s.sends[id] + 1)
  {
  }

  /** The rows before it in a frame leave a row outside the filter unsent. */
  lemma {:induction false} FrameUpTo(s: State, n: nat, id: nat) returns (t: State)
    requires s.reading.Reading? && s.reading.confirmed == [] && n <= |s.reading.left| && Known(s.rows, s.reading.left)
    requires id !in s.applied && forall i :: 0 <= i < n ==> s.reading.left[i] != id
    ensures Exec(s, Landings(n)) == Some(t) && t.rows == s.rows && t.sends[id] == s.sends[id] && id !in t.applied
    ensures t.reading == Reading(s.reading.left[n..], s.reading.left[..n])
  {
    hide Exec, HandleNext;
    if n == 0 {
      ExecNothing(s);
      t := s;
    } else {
      var u := FrameUpTo(s, n - 1, id);
      assert u.reading.left[0] == s.reading.left[n - 1];
      t := RowHandled(s, Landings(n - 1), u);
      RowReaches(u, id);
      TakeOneMore(s.reading.left, n);
    }
  }

  lemma ExecNothing(s: State)
    ensures Exec(s, []) == Some(s)
  {
  }

  /** Where the next flush has the row. */
  lemma {:induction false} ServedAt(n: nat, delivered: set<nat>, id: nat) returns (p: nat)
    requires id < n && id !in delivered
    ensures p < |Undelivered(n, delivered)| && Undelivered(n, delivered)[p] == id
    ensures forall i :: 0 <= i < p ==> Undelivered(n, delivered)[i] != id
  {
    if id == n - 1 {
      p := |Undelivered(n - 1, delivered)|;
      ServesOnlyKnown(n - 1, delivered);
    } else {
      p := ServedAt(n - 1, delivered, id);
    }
  }

  /** An undelivered row outside the filter is sent by the next flush that nothing disturbs. */
  lemma UndeliveredIsSentAgain(s: State, id: nat) returns (steps: seq<Step>)
    requires s.reading.Idle? && id < |s.rows| && !Unbound(s.rows[id])
    requires id !in s.applied && id !in s.delivered
    ensures SendsAgain(s, steps, id)
  {
    hide Exec;
    var items := Undelivered(|s.rows|, s.delivered);
    var p := ServedAt(|s.rows|, s.delivered, id);
    var opening := [Disconnect, Flush, Receive];
    var u := s.(pipe := [], reading := Reading(items, []));
    ServesOnlyKnown(|s.rows|, s.delivered);
    OpeningRun(s);
    var v := FrameUpTo(u, p, id);
    ExecConcat(s, opening, Landings(p));
    assert v.reading.left[0] == id;
    RowReaches(v, id);
    Then(s, opening + Landings(p), v, Handle(false, Landed));
    steps := opening + Landings(p) + [Handle(false, Landed)];
    LandingsNoRestart(p);
  }

  lemma {:induction false} LandingsNoRestart(n: nat)
    ensures forall i :: 0 <= i < |Landings(n)| ==> !Landings(n)[i].Restart?
  {
    if n > 0 { LandingsNoRestart(n - 1); }
  }

  /**
   * Exactly when a row can reach the agent again within one device process. With the
   * device idle and nothing of the row on its way, a row outside the filter can, on some
   * run, if and only if it has no delivery mark. That goes for rows evicted, for rows
   * whose send was cut short, and for rows not sent so far.
   */
  lemma SentAgainExactly(s: State, id: nat)
    requires s.reading.Idle? && id < |s.rows| && !Unbound(s.rows[id])
    requires id !in s.applied && Clear(s, id)
    ensures (exists steps :: SendsAgain(s, steps, id)) <==> id !in s.delivered
  {
    if id in s.delivered {
      forall steps ensures !SendsAgain(s, steps, id) {
        if Exec(s, steps).Some? { DoneIsFinal(s, steps, id); }
      }
    } else {
      var steps := UndeliveredIsSentAgain(s, id);
    }
  }

  /** And a row inside the filter only after it has fallen out. */
  lemma {:induction false} FilteredIsSentOnlyAfterEviction(s: State, steps: seq<Step>, id: nat) returns (n: nat)
    requires id in s.applied && SendsAgain(s, steps, id)
    ensures n < |steps| && Exec(s, steps[..n]).Some? && id !in Exec(s, steps[..n]).value.applied
  {
    var before := steps[..|steps| - 1];
    var t := Exec(s, before).value;
    if id !in t.applied {
      n := |steps| - 1;
    } else {
      SendNeedsGap(t, steps[|steps| - 1], id);
      n := FilteredIsSentOnlyAfterEviction(s, before, id);
      assert before[..n] == steps[..n];
    }
  }

  lemma SendNeedsGap(s: State, step: Step, id: nat)
    requires Enabled(s, step) && id in s.applied
    ensures Apply(s, step).sends[id] <= s.sends[id]
  {
  }

  // ------------------------------------------------------------ a send cut short

  lemma FirstRowServed(start: State, before: seq<Step>, s: State, send: Outcome) returns (t: State)
    requires Exec(start, before) == Some(s) && s.reading.Idle? && |s.rows| == 1 && s.delivered == {}
    requires s.applied == [] && s.log == [] && !s.rows[0].isVerdict && (send.Landed? || send.CutShort?)
    ensures Exec(start, before + [Disconnect, Flush, Receive] + [Handle(false, send)]) == Some(t)
    ensures t.rows == s.rows && t.delivered == {} && t.sends == s.sends + multiset{0}
    ensures send.CutShort? ==> t.reading.Idle? && t.applied == [] && t.log == []
    ensures send.Landed? ==> t.log == [0]
  {
    hide Exec;
    assert Undelivered(1, {}) == [0];
    var u := s.(pipe := [], reading := Reading([0], []));
    OpeningRun(s);
    ExecConcat(start, before, [Disconnect, Flush, Receive]);
    t := HandleNext(u, false, send);
    Then(start, before + [Disconnect, Flush, Receive], u, Handle(false, send));
  }

  /**
   * Once per process is too strong: a reply whose pending count cannot be written
   * reaches the agent, enters no filter, and reaches it again on the next flush.
   */
  lemma CutShortIsSentAgain() returns (steps: seq<Step>)
    ensures Exec(INIT, steps).Some?
    ensures Exec(INIT, steps).value.sends[0] == 2 && Exec(INIT, steps).value.log == [0]
  {
    var reply := Verdicts.InboxRow(0, 0, false, None, None, 0);
    var queued := [Queue(reply)];
    var s := INIT.(rows := [reply]);
    assert Exec(INIT, queued) == Some(s) by {
      assert queued[..0] == [];
      assert [] + [reply] == [reply];
    }
    var t := FirstRowServed(INIT, queued, s, CutShort);
    var first := queued + [Disconnect, Flush, Receive] + [Handle(false, CutShort)];
    var u := FirstRowServed(INIT, first, t, Landed);
    steps := first + [Disconnect, Flush, Receive] + [Handle(false, Landed)];
  }
}
