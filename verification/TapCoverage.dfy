/**
 * One tick of the tap, and what it takes for the mirror to hold everything below the
 * cursor after it.
 */
module TapCoverage {
  import opened Common
  import opened Transcript
  import opened Tap
  import opened TapSystem
  import Outbox

  datatype AfkTick = AfkTick(shipping: bool, shouldBackfill: bool, shouldClearOutbox: bool)

  function ClassifyAfkTick(prevAfk: bool, afkOn: bool, enabled: bool): AfkTick {
    var shipping := enabled && afkOn;
    AfkTick(shipping, shipping && !prevAfk, !afkOn && prevAfk)
  }

  /**
   * What a tick meets: growth of the file before it, the AFK and egress state, how far
   * the two reads got (None: the read throws), and growth between the two reads.
   */
  datatype Env = Env(
    before: seq<byte>, afkOn: bool, enabled: bool, backfill: Option<nat>, between: seq<byte>, tail: Option<nat>)

  predicate Possible<B>(s: State<B>, env: Env) {
    && (env.backfill.Some? ==> env.backfill.value <= |s.file| + |env.before|)
    && (env.tail.Some? ==> env.tail.value <= |s.file| + |env.before| + |env.between|)
  }

  /** Does the AFK edge's backfill land in this tick? */
  predicate Lands<B>(s: State<B>, env: Env) {
    ClassifyAfkTick(s.lastAfk, env.afkOn, env.enabled).shouldBackfill && env.backfill.Some?
  }

  function Grown<B>(s: State<B>, bytes: seq<byte>): State<B> {
    s.(file := s.file + bytes)
  }

  function EdgePart<B>(s: State<B>, env: Env, reduce: Line -> seq<B>): State<B>
    requires env.backfill.Some? ==> env.backfill.value <= |s.file|
  {
    var queued := if Lands(s, env) then Append(s, Fresh(s, true, env.backfill.value, reduce)) else s;
    if ClassifyAfkTick(s.lastAfk, env.afkOn, env.enabled).shouldClearOutbox then queued.(rows := []) else queued
  }

  /** The tail read: ship the new lines if asked to, then move and persist the cursor. */
  function TailPart<B>(s: State<B>, read: Option<nat>, ship: bool, reduce: Line -> seq<B>): State<B>
    requires read.Some? ==> read.value <= |s.file|
  {
    if read.None? then s
    else
      var t := ReadFrom(s.file, s.cursor.byteOffset, read.value);
      if t.lines == [] then s
      else
        var shipped := if ship then Append(s, Fresh(s, false, read.value, reduce)) else s;
        var cursor := Advanced(s.cursor, t);
        shipped.(cursor := cursor, disk := cursor)
  }

  /** Everything a tick does before it drains the queue. */
  function BeforeDrain<B>(s: State<B>, env: Env, reduce: Line -> seq<B>): State<B>
    requires Possible(s, env)
  {
    var start := Grown(s, env.before);
    var queued := Grown(EdgePart(start, env, reduce), env.between);
    var tailed := TailPart(queued, env.tail, env.enabled && env.afkOn && !Lands(start, env), reduce);
    tailed.(lastAfk := env.afkOn && (Lands(start, env) || s.lastAfk))
  }

  lemma TailKeepsLatch<B>(s: State<B>, read: Option<nat>, ship: bool, reduce: Line -> seq<B>)
    requires read.Some? ==> read.value <= |s.file|
    ensures TailPart(s, read, ship, reduce).lastAfk == s.lastAfk
  {
  }

  /** A tick before its drain, when nothing was appended before it: edge, growth, tail, latch. */
  lemma BeforeDrainParts<B>(s: State<B>, env: Env, edge: State<B>, tailed: State<B>, reduce: Line -> seq<B>)
    requires Possible(s, env) && env.before == []
    requires edge == EdgePart(s, Env([], env.afkOn, env.enabled, env.backfill, [], None), reduce)
    requires edge.file == s.file
    requires tailed == TailPart(Grown(edge, env.between), env.tail, env.enabled && env.afkOn && !Lands(s, env), reduce)
    ensures BeforeDrain(s, env, reduce) == tailed.(lastAfk := env.afkOn && (Lands(s, env) || s.lastAfk))
  {
    assert s.file + [] == s.file;
  }

  predicate Stored(fate: Outbox.Fate) {
    fate.Delivered? || (fate.Rescheduled? && fate.stored)
  }

  // ------------------------------------------------------------ the server's own AFK state

  function Switched<B>(s: State<B>, server: seq<bool>): State<B> {
    if server == [] then s else SwitchServer(Switched(s, server[..|server| - 1]), server[|server| - 1])
  }

  /** The server's state, on or off to begin with, after these switches. */
  predicate After(on: bool, server: seq<bool>) {
    if server == [] then on else server[|server| - 1]
  }

  /** Is it switched from on to off on the way? */
  predicate Wipes(on: bool, server: seq<bool>) {
    server != [] && (Wipes(on, server[..|server| - 1]) || (After(on, server[..|server| - 1]) && !server[|server| - 1]))
  }

  lemma {:induction false} SwitchedIs<B>(s: State<B>, server: seq<bool>)
    ensures Switched(s, server) ==
      s.(serverAfk := After(s.serverAfk, server), mirror := if Wipes(s.serverAfk, server) then map[] else s.mirror)
  {
    if server != [] { SwitchedIs(s, server[..|server| - 1]); }
  }

  lemma SwitchedSafe<B>(s: State<B>, server: seq<bool>, reduce: Line -> seq<B>)
    requires Safe(s, reduce)
    ensures Safe(Switched(s, server), reduce)
  {
    SwitchedIs(s, server);
  }

  // ------------------------------------------------------------ a drain

  /**
   * The server's side of the first n rows. It may be switched before any of them; a
   * post that reaches it while off is answered like any other, and stores nothing.
   */
  function Posted<B>(s: State<B>, fates: seq<Outbox.Fate>, during: nat -> seq<bool>, n: nat): State<B>
    requires n <= |s.rows| && n <= |fates|
  {
    if n == 0 then s
    else
      var t := Switched(Posted(s, fates, during, n - 1), during(n - 1));
      if Stored(fates[n - 1]) then Store(t, s.rows[n - 1].payload) else t
  }

  function Drained<B>(s: State<B>, fates: seq<Outbox.Fate>, during: nat -> seq<bool>, now: int): State<B>
    requires |fates| == |s.rows|
  {
    Posted(s, fates, during, |fates|).(rows := Outbox.Survivors(s.rows, fates, |fates|, now))
  }

  function NoSwitch(k: nat): seq<bool> {
    []
  }

  predicate ServerAt(on: bool, during: nat -> seq<bool>, n: nat) {
    if n == 0 then on else After(ServerAt(on, during, n - 1), during(n - 1))
  }

  predicate WipedBy(on: bool, during: nat -> seq<bool>, n: nat) {
    n > 0 && (WipedBy(on, during, n - 1) || Wipes(ServerAt(on, during, n - 1), during(n - 1)))
  }

  function KeysOf<B>(events: seq<Event<B>>, n: nat): set<Key>
    requires n <= |events|
  {
    if n == 0 then {} else KeysOf(events, n - 1) + {events[n - 1].key}
  }

  /** The positions that the first n rows fill for good: stored with the server on, and not wiped since. */
  function Taken<B>(on: bool, rows: Rows<B>, fates: seq<Outbox.Fate>, during: nat -> seq<bool>, n: nat): set<Key>
    requires n <= |rows| && n <= |fates|
  {
    if n == 0 then {}
    else
      var before := if Wipes(ServerAt(on, during, n - 1), during(n - 1)) then {} else Taken(on, rows, fates, during, n - 1);
      before + if Stored(fates[n - 1]) && ServerAt(on, during, n) then KeysOf(rows[n - 1].payload, |rows[n - 1].payload|) else {}
  }

  lemma {:induction false} InsertedKeySet<B>(mirror: map<Key, B>, events: seq<Event<B>>, n: nat)
    requires n <= |events|
    ensures Inserted(mirror, events, n).Keys == mirror.Keys + KeysOf(events, n)
  {
    if n > 0 { InsertedKeySet(mirror, events, n - 1); }
  }

  lemma StoredKeys<B>(s: State<B>, payload: seq<Event<B>>)
    ensures
      var t := Store(s, payload);
      && t == s.(mirror := t.mirror)
      && t.mirror.Keys == s.mirror.Keys + if s.serverAfk then KeysOf(payload, |payload|) else {}
  {
    InsertedKeySet(s.mirror, payload, |payload|);
  }

  /** What the server has after the first n rows. */
  lemma {:induction false} PostedFacts<B>(s: State<B>, fates: seq<Outbox.Fate>, during: nat -> seq<bool>, n: nat)
    requires n <= |s.rows| && n <= |fates|
    ensures
      var t := Posted(s, fates, during, n);
      && t == s.(mirror := t.mirror, serverAfk := ServerAt(s.serverAfk, during, n))
      && t.mirror.Keys == (if WipedBy(s.serverAfk, during, n) then {} else s.mirror.Keys)
                          + Taken(s.serverAfk, s.rows, fates, during, n)
  {
    hide Switched, Store, KeysOf, Wipes, After;
    if n > 0 {
      PostedFacts(s, fates, during, n - 1);
      var t := Posted(s, fates, during, n - 1);
      SwitchedIs(t, during(n - 1));
      StoredKeys(Switched(t, during(n - 1)), s.rows[n - 1].payload);
    }
  }

  lemma {:induction false} KeysOfEvents<B>(events: seq<Event<B>>, n: nat, k: Key) returns (i: nat)
    requires n <= |events| && k in KeysOf(events, n)
    ensures i < n && events[i].key == k
  {
    if events[n - 1].key == k { i := n - 1; } else { i := KeysOfEvents(events, n - 1, k); }
  }

  lemma {:induction false} EventKeys<B>(events: seq<Event<B>>, n: nat, i: nat)
    requires i < n <= |events|
    ensures events[i].key in KeysOf(events, n)
  {
    if i < n - 1 { EventKeys(events, n - 1, i); }
  }

  /** What is taken was queued. */
  lemma {:induction false} TakenWasQueued<B>(on: bool, rows: Rows<B>, fates: seq<Outbox.Fate>, during: nat -> seq<bool>, n: nat, k: Key)
    returns (e: Event<B>)
    requires n <= |rows| && n <= |fates| && k in Taken(on, rows, fates, during, n)
    ensures e.key == k && e in Contents(rows, n)
  {
    var payload := rows[n - 1].payload;
    if k in KeysOf(payload, |payload|) {
      var i := KeysOfEvents(payload, |payload|, k);
      e := payload[i];
    } else {
      e := TakenWasQueued(on, rows, fates, during, n - 1, k);
    }
  }

  /** A post that was stored although its answer was lost fills its positions, and is queued to be posted again. */
  lemma LostAnswerIsStoredAndRetried<B>(s: State<B>, jitter: nat, now: int, e: Event<B>)
    requires s.serverAfk && |s.rows| == 1 && e in s.rows[0].payload
    ensures
      var t := Drained(s, [Outbox.Rescheduled(true, jitter)], NoSwitch, now);
      e.key in t.mirror && e in Queued(t.rows)
  {
    var fates := [Outbox.Rescheduled(true, jitter)];
    var i :| 0 <= i < |s.rows[0].payload| && s.rows[0].payload[i] == e;
    EventKeys(s.rows[0].payload, |s.rows[0].payload|, i);
    PostedFacts(s, fates, NoSwitch, 1);
    assert !Wipes(true, NoSwitch(0)) && ServerAt(true, NoSwitch, 0) && ServerAt(true, NoSwitch, 1);
    assert s.rows[0].payload[i].key in Taken(s.serverAfk, s.rows, fates, NoSwitch, 1);
    SurvivorsHold(s.rows, fates, 1, now);
    assert KeptContents(s.rows, fates, 1) == KeptContents(s.rows, fates, 0) + AsSet(s.rows[0].payload);
  }

  // ------------------------------------------------------------ coverage

  ghost predicate Has<B>(s: State<B>, e: Event<B>) {
    e.key in s.mirror || e in Queued(s.rows)
  }

  /** Every block of the lines below n is in the mirror or queued for it. */
  ghost predicate CoveredUpTo<B(!new)>(s: State<B>, n: nat, reduce: Line -> seq<B>) {
    forall e :: IsBlock(e, Lines(s.file), reduce) && e.key.lineNo < n ==> Has(s, e)
  }

  /**
   * Is the block still held after the drain of these rows: in a mirror that was not
   * wiped, in a batch that was taken, or in one that stays queued?
   */
  ghost predicate Remains<B>(s: State<B>, fates: seq<Outbox.Fate>, during: nat -> seq<bool>, e: Event<B>)
    requires |fates| == |s.rows|
  {
    || (e.key in s.mirror && !WipedBy(s.serverAfk, during, |fates|))
    || e.key in Taken(s.serverAfk, s.rows, fates, during, |fates|)
    || e in KeptContents(s.rows, fates, |fates|)
  }

  lemma DrainedHas<B(!new)>(s: State<B>, fates: seq<Outbox.Fate>, during: nat -> seq<bool>, now: int, e: Event<B>,
                            reduce: Line -> seq<B>)
    requires Safe(s, reduce) && |fates| == |s.rows| && IsBlock(e, Lines(s.file), reduce)
    ensures Has(Drained(s, fates, during, now), e) <==> Remains(s, fates, during, e)
    ensures Remains(s, fates, during, e) ==> Has(s, e)
  {
    PostedFacts(s, fates, during, |fates|);
    SurvivorsHold(s.rows, fates, |fates|, now);
    KeptContentsBounds(s.rows, fates, |fates|);
    if e.key in Taken(s.serverAfk, s.rows, fates, during, |fates|) {
      var taken := TakenWasQueued(s.serverAfk, s.rows, fates, during, |fates|, e.key);
      assert IsBlock(taken, Lines(s.file), reduce);
    }
  }

  /** Does the drain keep every block below line n that was held before it? */
  ghost predicate NothingDropped<B(!new)>(s: State<B>, fates: seq<Outbox.Fate>, during: nat -> seq<bool>, n: nat,
                                          reduce: Line -> seq<B>)
    requires |fates| == |s.rows|
  {
    forall e :: IsBlock(e, Lines(s.file), reduce) && e.key.lineNo < n && Has(s, e) ==> Remains(s, fates, during, e)
  }

  /** The server is on for the row, and does not reject its batch. */
  predicate Accepts(on: bool, fate: Outbox.Fate, during: nat -> seq<bool>, k: nat) {
    ServerAt(on, during, k + 1) && !fate.Poisoned?
  }

  /** The server is on for every row, is not switched off in between, and rejects no batch. */
  predicate Accepted(on: bool, fates: seq<Outbox.Fate>, during: nat -> seq<bool>) {
    && !WipedBy(on, during, |fates|)
    && forall k: nat :: k < |fates| ==> Accepts(on, fates[k], during, k)
  }

  lemma {:induction false} AcceptedIsTaken<B>(on: bool, rows: Rows<B>, fates: seq<Outbox.Fate>, during: nat -> seq<bool>,
                                              n: nat, k: nat, i: nat)
    requires k < n <= |rows| && n <= |fates| && i < |rows[k].payload| && Stored(fates[k])
    requires Accepted(on, fates, during) && !WipedBy(on, during, n)
    ensures rows[k].payload[i].key in Taken(on, rows, fates, during, n)
  {
    if k < n - 1 {
      AcceptedIsTaken(on, rows, fates, during, n - 1, k, i);
    } else {
      assert Accepts(on, fates[k], during, k);
      EventKeys(rows[k].payload, |rows[k].payload|, i);
    }
  }

  lemma AcceptedDropsNothing<B(!new)>(s: State<B>, fates: seq<Outbox.Fate>, during: nat -> seq<bool>, n: nat,
                                      reduce: Line -> seq<B>)
    requires |fates| == |s.rows| && Accepted(s.serverAfk, fates, during)
    ensures NothingDropped(s, fates, during, n, reduce)
  {
    KeptContentsBounds(s.rows, fates, |fates|);
    forall e | e in Queued(s.rows) ensures Remains(s, fates, during, e) {
      var k := QueuedComesFromARow(s.rows, |s.rows|, e);
      if !Outbox.Kept(fates[k]) {
        assert Accepts(s.serverAfk, fates[k], during, k);
        var i :| 0 <= i < |s.rows[k].payload| && s.rows[k].payload[i] == e;
        AcceptedIsTaken(s.serverAfk, s.rows, fates, during, |fates|, k, i);
      }
    }
  }

  lemma TailPartFacts<B(!new)>(s: State<B>, read: Option<nat>, ship: bool, reduce: Line -> seq<B>)
    requires Safe(s, reduce) && (read.Some? ==> read.value <= |s.file|)
    ensures var t := TailPart(s, read, ship, reduce);
      && t == s.(cursor := t.cursor, disk := t.disk, rows := t.rows, seqNo := t.seqNo)
      && s.cursor.lineNo <= t.cursor.lineNo <= |Lines(s.file)|
      && (read == Some(|s.file|) ==> t.cursor.lineNo == |Lines(s.file)|)
      && Safe(t, reduce)
      && (if ship
          then forall e :: e in Queued(t.rows) <==>
                 e in Queued(s.rows) || (s.cursor.lineNo <= e.key.lineNo < t.cursor.lineNo && IsBlock(e, Lines(s.file), reduce))
          else t.rows == s.rows)
  {
    if read.Some? {
      var r := read.value;
      var t := ReadFrom(s.file, s.cursor.byteOffset, r);
      ReadFromCursor(s.cursor, s.file, r);
      if t.lines != [] && ship {
        var events := Fresh(s, false, r, reduce);
        forall e ensures e in events <==>
          s.cursor.lineNo <= e.key.lineNo < s.cursor.lineNo + |t.lines| && IsBlock(e, Lines(s.file), reduce)
        {
          FreshAreBlocks(s, false, r, reduce, e);
        }
        AppendKeepsQueue(s, events, reduce);
      }
    } else {
      LinesGrow(s.file[..s.cursor.byteOffset], s.file);
    }
  }

  lemma EdgeFacts<B(!new)>(s: State<B>, env: Env, reduce: Line -> seq<B>)
    requires Safe(s, reduce) && (env.backfill.Some? ==> env.backfill.value <= |s.file|)
    ensures var t := EdgePart(s, env, reduce);
      && t == s.(rows := t.rows, seqNo := t.seqNo) && Safe(t, reduce)
      && (!Lands(s, env) && env.afkOn ==> t.rows == s.rows)
      && (Lands(s, env) ==>
            var n := |ReadFrom(s.file, 0, env.backfill.value).lines|;
            && n <= |Lines(s.file)| && (env.backfill.value == |s.file| ==> n == |Lines(s.file)|)
            && forall e :: e in Queued(t.rows) <==>
                 e in Queued(s.rows) || (e.key.lineNo < n && IsBlock(e, Lines(s.file), reduce)))
  {
    if Lands(s, env) {
      var r := env.backfill.value;
      var events := Fresh(s, true, r, reduce);
      assert s.file[..0] == [];
      ReadFromCursor(Cursor(0, 0), s.file, r);
      forall e ensures e in events <==>
        e.key.lineNo < |ReadFrom(s.file, 0, r).lines| && IsBlock(e, Lines(s.file), reduce)
      {
        FreshAreBlocks(s, true, r, reduce, e);
      }
      AppendKeepsQueue(s, events, reduce);
    }
  }

  lemma CursorWithinFile<B(!new)>(s: State<B>, reduce: Line -> seq<B>)
    requires Safe(s, reduce)
    ensures s.cursor.lineNo <= |Lines(s.file)|
  {
    LinesGrow(s.file[..s.cursor.byteOffset], s.file);
  }

  /** The transcript as the tick's second read meets it. */
  function Whole<B>(s: State<B>, env: Env): seq<byte> {
    s.file + env.before + env.between
  }

  /** How many lines the tail of this tick gets to: those of the bytes it reads, if that is past the cursor. */
  function Reach<B>(s: State<B>, env: Env): nat
    requires Possible(s, env)
  {
    if env.tail.None? then s.cursor.lineNo
    else
      var n := |Lines(Whole(s, env)[..env.tail.value])|;
      if n < s.cursor.lineNo then s.cursor.lineNo else n
  }

  lemma TailReaches(c: Cursor, file: seq<byte>, readable: nat)
    requires CursorOk(c, file) && readable <= |file|
    ensures
      var n := |Lines(file[..readable])|;
      Advanced(c, ReadFrom(file, c.byteOffset, readable)).lineNo == if n < c.lineNo then c.lineNo else n
  {
    var below := file[..c.byteOffset];
    if readable <= c.byteOffset {
      assert file[..readable] <= below;
      LinesGrow(file[..readable], below);
    } else {
      var slice := file[c.byteOffset..readable];
      ReadOn(below, slice);
      assert file[..readable] == below + slice;
    }
  }

  lemma TailPartReaches<B(!new)>(s: State<B>, read: Option<nat>, ship: bool, reduce: Line -> seq<B>)
    requires Safe(s, reduce) && (read.Some? ==> read.value <= |s.file|)
    ensures
      var n := if read.None? then 0 else |Lines(s.file[..read.value])|;
      TailPart(s, read, ship, reduce).cursor.lineNo == if n < s.cursor.lineNo then s.cursor.lineNo else n
  {
    if read.Some? { TailReaches(s.cursor, s.file, read.value); }
  }

  lemma LatchKeepsSafe<B>(s: State<B>, on: bool, reduce: Line -> seq<B>)
    requires Safe(s, reduce)
    ensures Safe(s.(lastAfk := on), reduce)
  {
  }

  lemma BeforeDrainFacts<B(!new)>(s: State<B>, env: Env, reduce: Line -> seq<B>)
    requires Safe(s, reduce) && Possible(s, env)
    ensures
      var u := BeforeDrain(s, env, reduce);
      && Safe(u, reduce) && u.file == Whole(s, env) && u.cursor.lineNo == Reach(s, env)
      && u.mirror == s.mirror && u.serverAfk == s.serverAfk
  {
    hide Safe;
    var start := Grown(s, env.before);
    GrowKeepsSafe(s, env.before, reduce);
    EdgeFacts(start, env, reduce);
    var edge := EdgePart(start, env, reduce);
    GrowKeepsSafe(edge, env.between, reduce);
    var v := Grown(edge, env.between);
    TailPartFacts(v, env.tail, env.enabled && env.afkOn && !Lands(start, env), reduce);
    TailPartReaches(v, env.tail, env.enabled && env.afkOn && !Lands(start, env), reduce);
    LatchKeepsSafe(TailPart(v, env.tail, env.enabled && env.afkOn && !Lands(start, env), reduce),
                   env.afkOn && (Lands(start, env) || s.lastAfk), reduce);
  }

  /** What this tick's reads ship: all a landing backfill reads, or the lines the tail passes. */
  ghost predicate Ships<B>(s: State<B>, env: Env, lineNo: nat)
    requires Possible(s, env)
  {
    if Lands(s, env) then lineNo < |Lines(s.file + env.before)|
    else env.enabled && env.afkOn && s.cursor.lineNo <= lineNo < Reach(s, env)
  }

  /** Before its drain a tick has what it had and what its reads shipped. */
  lemma BeforeDrainHas<B(!new)>(s: State<B>, env: Env, e: Event<B>, reduce: Line -> seq<B>)
    requires Safe(s, reduce) && Possible(s, env) && env.afkOn
    requires env.backfill.Some? ==> env.backfill.value == |s.file| + |env.before|
    requires IsBlock(e, Lines(Whole(s, env)), reduce)
    ensures Has(BeforeDrain(s, env, reduce), e) <==> Has(s, e) || Ships(s, env, e.key.lineNo)
  {
    hide Safe;
    var start := Grown(s, env.before);
    GrowKeepsSafe(s, env.before, reduce);
    EdgeFacts(start, env, reduce);
    var edge := EdgePart(start, env, reduce);
    GrowKeepsSafe(edge, env.between, reduce);
    var v := Grown(edge, env.between);
    TailPartFacts(v, env.tail, env.enabled && env.afkOn && !Lands(start, env), reduce);
    BeforeDrainFacts(s, env, reduce);
    LinesGrow(start.file, v.file);
  }

  /** A whole tick: drain only while egress is enabled and the user is away. */
  function RunTick<B>(s: State<B>, env: Env, fates: seq<Outbox.Fate>, during: nat -> seq<bool>, now: int,
                      reduce: Line -> seq<B>): State<B>
    requires Possible(s, env)
    requires env.enabled && env.afkOn ==> |fates| == |BeforeDrain(s, env, reduce).rows|
  {
    var u := BeforeDrain(s, env, reduce);
    if env.enabled && env.afkOn then Drained(u, fates, during, now) else u
  }

  /** Is every block of these lines, from lo up to hi, in the mirror or queued? */
  ghost predicate Held<B(!new)>(s: State<B>, lines: seq<Line>, lo: nat, hi: nat, reduce: Line -> seq<B>) {
    forall e :: IsBlock(e, lines, reduce) && lo <= e.key.lineNo < hi ==> Has(s, e)
  }

  /**
   * What a tick must have held before it, so that nothing below its cursor is missing
   * after it. Where a backfill lands, the lines completed between its read and the
   * tail's. Where the daemon goes on shipping, the lines below the cursor it had. With
   * egress off, also the lines the tail passes.
   */
  ghost predicate NothingPassed<B(!new)>(s: State<B>, env: Env, reduce: Line -> seq<B>)
    requires Possible(s, env)
  {
    var whole := Lines(Whole(s, env));
    if Lands(s, env) then Held(s, whole, |Lines(s.file + env.before)|, Reach(s, env), reduce)
    else if env.enabled then Held(s, whole, 0, s.cursor.lineNo, reduce)
    else Held(s, whole, 0, Reach(s, env), reduce)
  }

  /**
   * Coverage, exactly, by what goes into a tick: after a tick on which the daemon counts
   * as shipping (a backfill landed, now or earlier) and whose backfill read the whole
   * file, every block below the cursor is in the mirror or still queued if and only if
   * the tail passed nothing and the drain dropped nothing, whatever the answers to its
   * posts were and however the server was switched meanwhile.
   */
  lemma CoverageExactly<B(!new)>(s: State<B>, env: Env, fates: seq<Outbox.Fate>, during: nat -> seq<bool>, now: int,
                                 reduce: Line -> seq<B>)
    requires Safe(s, reduce) && Possible(s, env) && env.afkOn && (Lands(s, env) || s.lastAfk)
    requires env.backfill.Some? ==> env.backfill.value == |s.file| + |env.before|
    requires env.enabled ==> |fates| == |BeforeDrain(s, env, reduce).rows|
    ensures
      var t := RunTick(s, env, fates, during, now, reduce);
      && t.lastAfk && t.cursor.lineNo == Reach(s, env)
      && (CoveredUpTo(t, t.cursor.lineNo, reduce) <==>
            && NothingPassed(s, env, reduce)
            && (env.enabled ==> NothingDropped(BeforeDrain(s, env, reduce), fates, during, Reach(s, env), reduce)))
  {
    hide Safe;
    var u := BeforeDrain(s, env, reduce);
    var t := RunTick(s, env, fates, during, now, reduce);
    if env.enabled { PostedFacts(u, fates, during, |fates|); }
    var lines := Lines(Whole(s, env));
    BeforeDrainFacts(s, env, reduce);
    forall e | IsBlock(e, lines, reduce)
      ensures Has(u, e) <==> Has(s, e) || Ships(s, env, e.key.lineNo)
      ensures env.enabled ==> (Has(t, e) <==> Remains(u, fates, during, e)) && (Has(t, e) ==> Has(u, e))
    {
      BeforeDrainHas(s, env, e, reduce);
      if env.enabled { DrainedHas(u, fates, during, now, e, reduce); }
    }
  }

  /**
   * With the server's own AFK state off throughout, every post is answered with success
   * and stores nothing: what is covered is what the mirror had and what stays queued.
   */
  lemma CoverageWithServerOff<B(!new)>(s: State<B>, env: Env, fates: seq<Outbox.Fate>, now: int, reduce: Line -> seq<B>)
    requires Safe(s, reduce) && Possible(s, env) && env.afkOn && env.enabled && !s.serverAfk
    requires |fates| == |BeforeDrain(s, env, reduce).rows|
    ensures
      var t := RunTick(s, env, fates, NoSwitch, now, reduce);
      CoveredUpTo(t, t.cursor.lineNo, reduce) <==>
        forall e :: IsBlock(e, Lines(Whole(s, env)), reduce) && e.key.lineNo < Reach(s, env) ==>
          e.key in s.mirror || e in KeptContents(BeforeDrain(s, env, reduce).rows, fates, |fates|)
  {
    var u := BeforeDrain(s, env, reduce);
    BeforeDrainFacts(s, env, reduce);
    PostedFacts(u, fates, NoSwitch, |fates|);
    OffTakesNothing(u.rows, fates, |fates|);
    SurvivorsHold(u.rows, fates, |fates|, now);
  }

  lemma {:induction false} OffTakesNothing<B>(rows: Rows<B>, fates: seq<Outbox.Fate>, n: nat)
    requires n <= |rows| && n <= |fates|
    ensures !ServerAt(false, NoSwitch, n) && !WipedBy(false, NoSwitch, n) && Taken(false, rows, fates, NoSwitch, n) == {}
  {
    if n > 0 { OffTakesNothing(rows, fates, n - 1); }
  }

  /** Nothing is queued or posted while the user is back or egress is off. */
  lemma QuietUnlessShipping<B(!new)>(s: State<B>, env: Env, fates: seq<Outbox.Fate>, during: nat -> seq<bool>, now: int,
                                     reduce: Line -> seq<B>)
    requires Safe(s, reduce) && Possible(s, env) && !(env.enabled && env.afkOn)
    ensures
      var t := RunTick(s, env, fates, during, now, reduce);
      && t.mirror == s.mirror
      && t.rows == if s.lastAfk && !env.afkOn then [] else s.rows
  {
    var start := Grown(s, env.before);
    GrowKeepsSafe(s, env.before, reduce);
    EdgeFacts(start, env, reduce);
    GrowKeepsSafe(EdgePart(start, env, reduce), env.between, reduce);
    TailPartFacts(Grown(EdgePart(start, env, reduce), env.between), env.tail, false, reduce);
  }

  /** A backfill whose read failed is due again at the next tick that may ship. */
  lemma FailedBackfillIsRetried<B(!new)>(s: State<B>, env: Env, fates: seq<Outbox.Fate>, during: nat -> seq<bool>,
                                         now: int, reduce: Line -> seq<B>)
    requires Safe(s, reduce) && Possible(s, env)
    requires env.enabled && env.afkOn ==> |fates| == |BeforeDrain(s, env, reduce).rows|
    requires !s.lastAfk && !Lands(Grown(s, env.before), env)
    ensures ClassifyAfkTick(RunTick(s, env, fates, during, now, reduce).lastAfk, true, true).shouldBackfill
  {
    var u := BeforeDrain(s, env, reduce);
    if env.enabled && env.afkOn { PostedFacts(u, fates, during, |fates|); }
  }

  // ------------------------------------------------------------ a whole AFK window

  lemma {:induction false} PostedSafe<B(!new)>(s: State<B>, fates: seq<Outbox.Fate>, during: nat -> seq<bool>, n: nat,
                                               reduce: Line -> seq<B>)
    requires Safe(s, reduce) && n <= |s.rows| && n <= |fates|
    ensures Safe(Posted(s, fates, during, n), reduce)
  {
    hide Safe;
    if n > 0 {
      PostedSafe(s, fates, during, n - 1, reduce);
      PostedFacts(s, fates, during, n - 1);
      var t := Posted(s, fates, during, n - 1);
      SwitchedSafe(t, during(n - 1), reduce);
      SwitchedIs(t, during(n - 1));
      SafeKept(Switched(t, during(n - 1)), Post(n - 1), reduce);
    }
  }

  lemma TickSafe<B(!new)>(s: State<B>, env: Env, fates: seq<Outbox.Fate>, during: nat -> seq<bool>, now: int,
                          reduce: Line -> seq<B>)
    requires Safe(s, reduce) && Possible(s, env)
    requires env.enabled && env.afkOn ==> |fates| == |BeforeDrain(s, env, reduce).rows|
    ensures Safe(RunTick(s, env, fates, during, now, reduce), reduce)
  {
    hide Safe;
    BeforeDrainFacts(s, env, reduce);
    var u := BeforeDrain(s, env, reduce);
    if env.enabled && env.afkOn {
      PostedSafe(u, fates, during, |fates|, reduce);
      PostedFacts(u, fates, during, |fates|);
      SafeKept(Posted(u, fates, during, |fates|), Rewrite(fates, now), reduce);
    }
  }

  /**
   * What a tick meets: how the server's own AFK state was switched since the tick before
   * and is switched during its drain, the answers to its posts, and the rest.
   */
  datatype Input = Input(server: seq<bool>, env: Env, fates: seq<Outbox.Fate>, during: nat -> seq<bool>, now: int)

  /**
   * A tick that is undisturbed: reads that reach the end of the file or throw and, while
   * the user is away, egress on, no growth between the two reads, no dead token.
   */
  ghost predicate Undisturbed<B>(s: State<B>, input: Input, reduce: Line -> seq<B>) {
    var env := input.env;
    && env.between == []
    && (env.backfill.Some? ==> env.backfill.value == |s.file| + |env.before|)
    && (env.tail.Some? ==> env.tail.value == |s.file| + |env.before|)
    && (env.afkOn ==> env.enabled && |input.fates| == |BeforeDrain(s, env, reduce).rows|)
  }

  /** The state after a window of undisturbed ticks, with the server switched in between and during them. */
  ghost function RunWindow<B>(s: State<B>, inputs: seq<Input>, reduce: Line -> seq<B>): Option<State<B>> {
    if inputs == [] then Some(s)
    else
      var last := inputs[|inputs| - 1];
      match RunWindow(s, inputs[..|inputs| - 1], reduce)
      case None => None
      case Some(t) =>
        var u := Switched(t, last.server);
        if Undisturbed(u, last, reduce)
        then Some(RunTick(u, last.env, last.fates, last.during, last.now, reduce))
        else None
  }

  /** Does the drain of this tick drop a block below its cursor? */
  ghost predicate Drops<B(!new)>(s: State<B>, input: Input, reduce: Line -> seq<B>)
    requires Undisturbed(s, input, reduce) && input.env.afkOn
  {
    !NothingDropped(BeforeDrain(s, input.env, reduce), input.fates, input.during, Reach(s, input.env), reduce)
  }

  /**
   * An undisturbed tick on which the daemon counts as shipping covers all if a backfill
   * landed, and else what was covered, less what its drain drops.
   */
  lemma UndisturbedTickCoversExactly<B(!new)>(s: State<B>, input: Input, reduce: Line -> seq<B>)
    requires Safe(s, reduce) && Undisturbed(s, input, reduce)
    ensures
      var t := RunTick(s, input.env, input.fates, input.during, input.now, reduce);
      && Safe(t, reduce)
      && (t.lastAfk <==> input.env.afkOn && (Lands(s, input.env) || s.lastAfk))
      && (t.lastAfk ==> (CoveredUpTo(t, t.cursor.lineNo, reduce) <==>
            (Lands(s, input.env) || CoveredUpTo(s, s.cursor.lineNo, reduce)) && !Drops(s, input, reduce)))
      && (input.env.tail.Some? ==> t.cursor.lineNo == |Lines(t.file)|)
  {
    hide Safe, NothingDropped;
    var env := input.env;
    TickSafe(s, env, input.fates, input.during, input.now, reduce);
    BeforeDrainFacts(s, env, reduce);
    var u := BeforeDrain(s, env, reduce);
    if env.afkOn { PostedFacts(u, input.fates, input.during, |input.fates|); }
    CursorWithinFile(s, reduce);
    assert Whole(s, env) == s.file + env.before;
    LinesGrow(s.file, Whole(s, env));
    if env.tail.Some? { assert Whole(s, env)[..env.tail.value] == Whole(s, env); }
    if env.afkOn && (Lands(s, env) || s.lastAfk) {
      CoverageExactly(s, env, input.fates, input.during, input.now, reduce);
      if Lands(s, env) { assert Reach(s, env) <= |Lines(s.file + env.before)|; }
    }
  }

  /** Is every block below the cursor queued, mirror or not? */
  ghost predicate AllQueued<B(!new)>(s: State<B>, reduce: Line -> seq<B>) {
    forall e :: IsBlock(e, Lines(s.file), reduce) && e.key.lineNo < s.cursor.lineNo ==> e in Queued(s.rows)
  }

  /**
   * Has a window lost something that the daemon takes for shipped? Since the last
   * backfill that landed, and with no tick seeing the user back in between: either the
   * server wiped its mirror of blocks no longer queued, or a drain dropped blocks, as it
   * does when the server is off when they are posted, wipes them before the drain is
   * over, or rejects them. A window that begins with the daemon shipping may have
   * inherited a loss.
   */
  ghost predicate Lost<B(!new)>(s: State<B>, inputs: seq<Input>, reduce: Line -> seq<B>) {
    if inputs == [] then s.lastAfk && !CoveredUpTo(s, s.cursor.lineNo, reduce)
    else
      var last := inputs[|inputs| - 1];
      match RunWindow(s, inputs[..|inputs| - 1], reduce)
      case None => false
      case Some(t) =>
        var u := Switched(t, last.server);
        && Undisturbed(u, last, reduce) && last.env.afkOn
        && (|| (t.lastAfk
                && (Lost(s, inputs[..|inputs| - 1], reduce) || (Wipes(t.serverAfk, last.server) && !AllQueued(t, reduce))))
            || ((t.lastAfk || Lands(u, last.env)) && Drops(u, last, reduce)))
  }

  /** What a wipe leaves covered is what was queued. */
  lemma SwitchedCovers<B(!new)>(s: State<B>, server: seq<bool>, reduce: Line -> seq<B>)
    ensures
      var t := Switched(s, server);
      CoveredUpTo(t, t.cursor.lineNo, reduce) <==>
        CoveredUpTo(s, s.cursor.lineNo, reduce) && (Wipes(s.serverAfk, server) ==> AllQueued(s, reduce))
  {
    SwitchedIs(s, server);
    var t := Switched(s, server);
    assert Wipes(s.serverAfk, server) ==> forall e :: Has(t, e) <==> e in Queued(s.rows);
    assert !Wipes(s.serverAfk, server) ==> forall e :: Has(t, e) <==> Has(s, e);
  }

  /** While the daemon counts as shipping, everything below its cursor is covered exactly if nothing was lost. */
  lemma {:induction false} WindowCoversExactly<B(!new)>(s: State<B>, inputs: seq<Input>, reduce: Line -> seq<B>)
    requires Safe(s, reduce)
    ensures RunWindow(s, inputs, reduce).Some? ==>
      var t := RunWindow(s, inputs, reduce).value;
      && Safe(t, reduce)
      && (t.lastAfk ==> (CoveredUpTo(t, t.cursor.lineNo, reduce) <==> !Lost(s, inputs, reduce)))
      && (!t.lastAfk ==> !Lost(s, inputs, reduce))
      && (inputs != [] && inputs[|inputs| - 1].env.tail.Some? ==> t.cursor.lineNo == |Lines(t.file)|)
  {
    hide Safe, Drops, CoveredUpTo, AllQueued;
    if inputs != [] && RunWindow(s, inputs, reduce).Some? {
      var last := inputs[|inputs| - 1];
      WindowCoversExactly(s, inputs[..|inputs| - 1], reduce);
      var t := RunWindow(s, inputs[..|inputs| - 1], reduce).value;
      SwitchedSafe(t, last.server, reduce);
      SwitchedIs(t, last.server);
      SwitchedCovers(t, last.server, reduce);
      UndisturbedTickCoversExactly(Switched(t, last.server), last, reduce);
    }
  }

  /** At this key the mirror is the whole transcript reduced at once. */
  predicate MirrorsAt<B(==)>(s: State<B>, reduce: Line -> seq<B>, k: Key) {
    var whole := Lines(s.file);
    && (k in s.mirror <==> k.lineNo < |whole| && k.blockIdx < |reduce(whole[k.lineNo])|)
    && (k in s.mirror ==> s.mirror[k] == reduce(whole[k.lineNo])[k.blockIdx])
  }

  /** With the queue drained and the file read to its end, coverage is an exact mirror. */
  lemma DrainedMirrors<B(!new)>(t: State<B>, reduce: Line -> seq<B>)
    requires Safe(t, reduce) && t.rows == [] && t.cursor.lineNo == |Lines(t.file)|
    ensures CoveredUpTo(t, t.cursor.lineNo, reduce) <==> forall k :: MirrorsAt(t, reduce, k)
  {
    var whole := Lines(t.file);
    if CoveredUpTo(t, t.cursor.lineNo, reduce) {
      forall k ensures MirrorsAt(t, reduce, k) {
        if k.lineNo < |whole| && k.blockIdx < |reduce(whole[k.lineNo])| {
          var e := Event(k, reduce(whole[k.lineNo])[k.blockIdx]);
          assert IsBlock(e, whole, reduce);
          assert Has(t, e);
        }
      }
    } else {
      var e :| IsBlock(e, whole, reduce) && e.key.lineNo < t.cursor.lineNo && !Has(t, e);
      assert !MirrorsAt(t, reduce, e.key);
    }
  }

  /**
   * Over a window of undisturbed ticks, with the user and the server's state coming and
   * going, from any state of the daemon: once it counts as shipping and its queue is
   * drained, the mirror is the whole transcript reduced at once, lines from before the
   * window included, if and only if nothing was lost.
   */
  lemma WindowMirrorsWholeTranscript<B(!new)>(s: State<B>, inputs: seq<Input>, reduce: Line -> seq<B>)
    requires Safe(s, reduce) && inputs != [] && inputs[|inputs| - 1].env.tail.Some?
    ensures RunWindow(s, inputs, reduce).Some? ==>
      var t := RunWindow(s, inputs, reduce).value;
      t.lastAfk && t.rows == [] ==> ((forall k :: MirrorsAt(t, reduce, k)) <==> !Lost(s, inputs, reduce))
  {
    WindowCoversExactly(s, inputs, reduce);
    if RunWindow(s, inputs, reduce).Some? {
      var t := RunWindow(s, inputs, reduce).value;
      if t.lastAfk && t.rows == [] { DrainedMirrors(t, reduce); }
    }
  }

  lemma {:induction false} AllDeliveredLeavesNone<B>(rows: Rows<B>, fates: seq<Outbox.Fate>, n: nat, now: int)
    requires n <= |rows| && n <= |fates| && forall k :: 0 <= k < n ==> fates[k].Delivered?
    ensures Outbox.Survivors(rows, fates, n, now) == []
  {
    if n > 0 { AllDeliveredLeavesNone(rows, fates, n - 1, now); }
  }

  lemma {:induction false} StaysOn(n: nat)
    ensures ServerAt(true, NoSwitch, n) && !WipedBy(true, NoSwitch, n)
  {
    if n > 0 { StaysOn(n - 1); }
  }

  lemma AllAccepted(fates: seq<Outbox.Fate>)
    requires forall k :: 0 <= k < |fates| ==> fates[k].Delivered?
    ensures Accepted(true, fates, NoSwitch)
  {
    StaysOn(|fates|);
    forall k: nat | k < |fates| ensures Accepts(true, fates[k], NoSwitch, k) { StaysOn(k + 1); }
  }

  /**
   * And such a window is there to be had: from any state of the daemon one tick in which
   * nothing fails mirrors the whole transcript, exactly if the daemon either sees the
   * AFK edge or has lost nothing so far.
   */
  lemma OneGoodTickMirrorsAll<B(!new)>(s: State<B>, now: int, reduce: Line -> seq<B>)
    requires Safe(s, reduce) && s.serverAfk
    ensures
      var env := Env([], true, true, Some(|s.file|), [], Some(|s.file|));
      var fates := seq(|BeforeDrain(s, env, reduce).rows|, _ => Outbox.Delivered);
      && Undisturbed(s, Input([], env, fates, NoSwitch, now), reduce)
      && var t := RunTick(s, env, fates, NoSwitch, now, reduce);
         && t.file == s.file && t.rows == [] && t.lastAfk
         && ((forall k :: MirrorsAt(t, reduce, k)) <==> (s.lastAfk ==> CoveredUpTo(s, s.cursor.lineNo, reduce)))
  {
    var env := Env([], true, true, Some(|s.file|), [], Some(|s.file|));
    var u := BeforeDrain(s, env, reduce);
    var fates := seq(|u.rows|, _ => Outbox.Delivered);
    var input := Input([], env, fates, NoSwitch, now);
    BeforeDrainFacts(s, env, reduce);
    PostedFacts(u, fates, NoSwitch, |fates|);
    AllDeliveredLeavesNone(u.rows, fates, |fates|, now);
    AllAccepted(fates);
    AcceptedDropsNothing(u, fates, NoSwitch, Reach(s, env), reduce);
    UndisturbedTickCoversExactly(s, input, reduce);
    DrainedMirrors(RunTick(s, env, fates, NoSwitch, now, reduce), reduce);
  }

  // ------------------------------------------------------------ ticks that lose something

  /**
   * A line that lands between the backfill's read and the tail's, here the single line
   * "A", is passed by the cursor and never shipped.
   */
  lemma GrowthBetweenReadsIsLost()
    ensures
      var reduce := (line: Line) => [line];
      var s := State([], Cursor(0, 0), Cursor(0, 0), false, [], 0, map[], true);
      var env := Env([], true, true, Some(0), [65, LF], Some(2));
      && Possible(s, env)
      && BeforeDrain(s, env, reduce) == s.(file := [65, LF], cursor := Cursor(2, 1), disk := Cursor(2, 1), lastAfk := true)
      && RunTick(s, env, [], NoSwitch, 0, reduce) == BeforeDrain(s, env, reduce)
      && Lines([65, LF]) == [[65]]
  {
    var reduce := (line: Line) => [line];
    var s: State<Line> := State([], Cursor(0, 0), Cursor(0, 0), false, [], 0, map[], true);
    var env := Env([], true, true, Some(0), [65, LF], Some(2));
    OneLine();
    var file: seq<byte> := [65, LF];
    assert file[0..2] == file && [] + [] + file == file;
  }

  lemma OffAndOn<B>(s: State<B>)
    requires s.serverAfk
    ensures Switched(s, [false, true]) == s.(mirror := map[])
  {
    assert [false][..0] == [];
    assert Switched(s, [false]) == SwitchServer(s, false);
    assert [false, true][..1] == [false];
  }

  /** The single line "A", shipped before, with the daemon's cursor past it. */
  function Shipped(mirror: map<Key, Line>): State<Line> {
    State([65, LF], Cursor(2, 1), Cursor(2, 1), true, [], 0, mirror, true)
  }

  lemma OneLine()
    ensures Scan([65, LF]) == Scanned([[65]], [])
  {
    OneLineReadsBack(Written([65], false));
    assert [65] + [LF] == [65, LF];
  }

  lemma ShippedIsSafe()
    ensures Safe(Shipped(map[Key(0, 0) := [65]]), (line: Line) => [line])
    ensures CoveredUpTo(Shipped(map[Key(0, 0) := [65]]), 1, (line: Line) => [line])
  {
    OneLine();
    var file: seq<byte> := [65, LF];
    assert file[..2] == file;
  }

  /** A tick that finds nothing new leaves the mirror as it is. */
  lemma IdleTick(reduce: Line -> seq<Line>)
    ensures
      var input := Input([false, true], Env([], true, true, None, [], Some(2)), [], NoSwitch, 0);
      Undisturbed(Shipped(map[]), input, reduce) && RunTick(Shipped(map[]), input.env, [], NoSwitch, 0, reduce) == Shipped(map[])
  {
    var file: seq<byte> := [65, LF];
    assert file + [] == file;
  }

  /**
   * The server is switched off and on again between two ticks. It has wiped its mirror,
   * the daemon has seen no edge, and the line it shipped before stays missing.
   */
  lemma WipeBetweenTicksIsMissed()
    ensures
      var reduce := (line: Line) => [line];
      var s := Shipped(map[Key(0, 0) := [65]]);
      var input := Input([false, true], Env([], true, true, None, [], Some(2)), [], NoSwitch, 0);
      && Safe(s, reduce) && CoveredUpTo(s, s.cursor.lineNo, reduce)
      && RunWindow(s, [input], reduce) == Some(Shipped(map[])) && !MirrorsAt(Shipped(map[]), reduce, Key(0, 0))
  {
    var reduce := (line: Line) => [line];
    var s := Shipped(map[Key(0, 0) := [65]]);
    var input := Input([false, true], Env([], true, true, None, [], Some(2)), [], NoSwitch, 0);
    ShippedIsSafe();
    OneLine();
    OffAndOn(s);
    IdleTick(reduce);
    assert [input][..0] == [];
    assert RunWindow(s, [], reduce) == Some(s);
  }

  /**
   * The AFK edge is backfilled while the server's own AFK state is still off, as when the
   * toggle's POST is late. The post is answered with success, the row is dropped, nothing
   * is stored, and no later tick backfills again.
   */
  lemma BackfillToServerThatIsOffIsLost()
    ensures
      var reduce := (line: Line) => [line];
      var s := State([65, LF], Cursor(0, 0), Cursor(0, 0), false, [], 0, map[], false);
      var env := Env([], true, true, Some(2), [], Some(2));
      var fates := seq(|BeforeDrain(s, env, reduce).rows|, _ => Outbox.Delivered);
      && Safe(s, reduce)
      && var t := RunTick(s, env, fates, NoSwitch, 0, reduce);
         && t.lastAfk && t.cursor == Cursor(2, 1) && t.rows == [] && t.mirror == map[]
         && !MirrorsAt(t, reduce, Key(0, 0))
  {
    var reduce := (line: Line) => [line];
    var s: State<Line> := State([65, LF], Cursor(0, 0), Cursor(0, 0), false, [], 0, map[], false);
    var env := Env([], true, true, Some(2), [], Some(2));
    var u := BeforeDrain(s, env, reduce);
    var fates := seq(|u.rows|, _ => Outbox.Delivered);
    BackfillReads();
    PostedFacts(u, fates, NoSwitch, |fates|);
    OffTakesNothing(u.rows, fates, |fates|);
    AllDeliveredLeavesNone(u.rows, fates, |fates|, 0);
    OneLine();
  }

  lemma BackfillReads()
    ensures
      var reduce := (line: Line) => [line];
      var s := State([65, LF], Cursor(0, 0), Cursor(0, 0), false, [], 0, map[], false);
      var u := BeforeDrain(s, Env([], true, true, Some(2), [], Some(2)), reduce);
      Safe(s, reduce) && u.file == [65, LF] && u.cursor == Cursor(2, 1) && u.lastAfk && u.mirror == map[] && !u.serverAfk
  {
    OneLine();
    var file: seq<byte> := [65, LF];
    assert file[0..2] == file && file + [] == file;
  }
}
