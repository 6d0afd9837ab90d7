/**
 * Tap, file and server together, in steps fine enough for a crash, a growing file or
 * a toggled AFK state to fall between any two of them.
 */
module TapSystem {
  import opened Common
  import opened Transcript
  import opened Tap
  import Outbox

  datatype State<+B> = State(
    file: seq<byte>,
    cursor: Cursor,                 // in memory
    disk: Cursor,                   // persisted
    lastAfk: bool,
    rows: Rows<B>,
    seqNo: nat,
    mirror: map<Key, B>,
    serverAfk: bool)

  datatype Step =
    | Grow(bytes: seq<byte>)
    | SetServerAfk(on: bool)
    | Enqueue(fromTop: bool, readable: nat, count: nat)  // may be cut short by a crash
    | Advance(readable: nat)
    | Persist
    | Post(row: nat)                                     // may be repeated, its answer lost
    | Rewrite(fates: seq<Outbox.Fate>, now: int)
    | Clear
    | SetLastAfk(on: bool)
    | Restart

  /** What a read of the first `readable` bytes from `offset` delivers. */
  function ReadFrom(file: seq<byte>, offset: nat, readable: nat): Tail
    requires readable <= |file|
  {
    TailStep(Tail(offset, []), Tick(file, readable))
  }

  /** The events a backfill, or an incremental read, would queue. */
  function Fresh<B>(s: State<B>, fromTop: bool, readable: nat, reduce: Line -> seq<B>): seq<Event<B>>
    requires readable <= |s.file|
  {
    var lines := ReadFrom(s.file, if fromTop then 0 else s.cursor.byteOffset, readable).lines;
    Events(lines, |lines|, if fromTop then 0 else s.cursor.lineNo, reduce)
  }

  predicate Enabled<B>(s: State<B>, step: Step, reduce: Line -> seq<B>) {
    match step
    case Enqueue(fromTop, readable, count) =>
      readable <= |s.file| && count <= |Fresh(s, fromTop, readable, reduce)|
    case Advance(readable) => readable <= |s.file|
    case Post(k) => k < |s.rows|
    case Rewrite(fates, _) => |fates| == |s.rows|
    case _ => true
  }

  function Append<B>(s: State<B>, events: seq<Event<B>>): State<B> {
    var more := Batches(events, 0, s.seqNo);
    s.(rows := s.rows + more, seqNo := s.seqNo + |more|)
  }

  /** The cursor moves only when there were lines. */
  function Advanced(cursor: Cursor, tail: Tail): Cursor {
    if tail.lines == [] then cursor else Cursor(tail.offset, cursor.lineNo + |tail.lines|)
  }

  function Store<B>(s: State<B>, events: seq<Event<B>>): State<B> {
    if s.serverAfk then s.(mirror := Inserted(s.mirror, events, |events|)) else s
  }

  /** The server's own AFK state; switching it off wipes the mirror. */
  function SwitchServer<B>(s: State<B>, on: bool): State<B> {
    s.(serverAfk := on, mirror := if s.serverAfk && !on then map[] else s.mirror)
  }

  function Apply<B>(s: State<B>, step: Step, reduce: Line -> seq<B>): State<B>
    requires Enabled(s, step, reduce)
  {
    match step
    case Grow(bytes) => s.(file := s.file + bytes)
    case SetServerAfk(on) => SwitchServer(s, on)
    case Enqueue(fromTop, readable, count) => Append(s, Fresh(s, fromTop, readable, reduce)[..count])
    case Advance(readable) => s.(cursor := Advanced(s.cursor, ReadFrom(s.file, s.cursor.byteOffset, readable)))
    case Persist => s.(disk := s.cursor)
    case Post(k) => Store(s, s.rows[k].payload)
    case Rewrite(fates, now) => s.(rows := Outbox.Survivors(s.rows, fates, |s.rows|, now))
    case Clear => s.(rows := [])
    case SetLastAfk(on) => s.(lastAfk := on)
    case Restart => s.(cursor := s.disk, lastAfk := false)
  }

  /** A cursor sits at a line boundary and counts exactly the lines below it. */
  ghost predicate CursorOk(c: Cursor, file: seq<byte>) {
    && c.byteOffset <= |file|
    && Scan(file[..c.byteOffset]).pending == []
    && c.lineNo == |Lines(file[..c.byteOffset])|
  }

  ghost predicate QueueOk<B>(s: State<B>, reduce: Line -> seq<B>) {
    forall e :: e in Queued(s.rows) ==> IsBlock(e, Lines(s.file), reduce)
  }

  ghost predicate MirrorOk<B>(s: State<B>, reduce: Line -> seq<B>) {
    forall k :: k in s.mirror ==> IsBlock(Event(k, s.mirror[k]), Lines(s.file), reduce)
  }

  ghost predicate Safe<B>(s: State<B>, reduce: Line -> seq<B>) {
    CursorOk(s.cursor, s.file) && CursorOk(s.disk, s.file) && QueueOk(s, reduce) && MirrorOk(s, reduce)
  }

  lemma CursorOkGrows(c: Cursor, file: seq<byte>, bytes: seq<byte>)
    requires CursorOk(c, file)
    ensures CursorOk(c, file + bytes)
  {
    assert (file + bytes)[..c.byteOffset] == file[..c.byteOffset];
  }

  /** What a read from a good cursor delivers: the lines of the file just past the cursor's. */
  lemma ReadFromCursor(c: Cursor, file: seq<byte>, readable: nat)
    requires CursorOk(c, file) && readable <= |file|
    ensures
      var t := ReadFrom(file, c.byteOffset, readable);
      && c.lineNo + |t.lines| <= |Lines(file)|
      && (forall i :: 0 <= i < |t.lines| ==> t.lines[i] == Lines(file)[c.lineNo + i])
      && CursorOk(Advanced(c, t), file)
      && (readable == |file| ==> c.lineNo + |t.lines| == |Lines(file)|)
  {
    var below := Lines(file[..c.byteOffset]);
    var t := ReadFrom(file, c.byteOffset, readable);
    TailStepKeeps(Tail(c.byteOffset, below), Tick(file, readable));
    var u := TailStep(Tail(c.byteOffset, below), Tick(file, readable));
    assert u.offset == t.offset && u.lines == below + t.lines;
    assert file[..u.offset] <= file;
    LinesGrow(file[..u.offset], file);
  }

  lemma FreshAreBlocks<B>(s: State<B>, fromTop: bool, readable: nat, reduce: Line -> seq<B>, e: Event<B>)
    requires CursorOk(s.cursor, s.file) && readable <= |s.file|
    ensures
      var base := if fromTop then 0 else s.cursor.lineNo;
      var n := |ReadFrom(s.file, if fromTop then 0 else s.cursor.byteOffset, readable).lines|;
      e in Fresh(s, fromTop, readable, reduce) <==>
        base <= e.key.lineNo < base + n && IsBlock(e, Lines(s.file), reduce)
  {
    var c := if fromTop then Cursor(0, 0) else s.cursor;
    assert s.file[..0] == [];
    ReadFromCursor(c, s.file, readable);
    var lines := ReadFrom(s.file, c.byteOffset, readable).lines;
    EventsAreBlocks(Lines(s.file), lines, |lines|, c.lineNo, reduce, e);
  }

  // ------------------------------------------------------------ what every step keeps

  /** The events of the rows that survive the first n fates. */
  ghost function KeptContents<B>(rows: Rows<B>, fates: seq<Outbox.Fate>, n: nat): set<Event<B>>
    requires n <= |rows| && n <= |fates|
  {
    if n == 0 then {}
    else KeptContents(rows, fates, n - 1) + if Outbox.Kept(fates[n - 1]) then AsSet(rows[n - 1].payload) else {}
  }

  lemma {:induction false} SurvivorsHold<B>(rows: Rows<B>, fates: seq<Outbox.Fate>, n: nat, now: int)
    requires n <= |rows| && n <= |fates|
    ensures Queued(Outbox.Survivors(rows, fates, n, now)) == KeptContents(rows, fates, n)
  {
    if n > 0 {
      SurvivorsHold(rows, fates, n - 1, now);
      var before := Outbox.Survivors(rows, fates, n - 1, now);
      var back := Outbox.AfterFate(rows[n - 1], fates[n - 1], now);
      if Outbox.Kept(fates[n - 1]) {
        assert back == [back[0]];
        QueuedSnoc(before, back[0]);
      } else {
        assert before + back == before;
      }
    }
  }

  lemma {:induction false} KeptContentsBounds<B>(rows: Rows<B>, fates: seq<Outbox.Fate>, n: nat)
    requires n <= |rows| && n <= |fates|
    ensures KeptContents(rows, fates, n) <= Contents(rows, n)
    ensures forall k :: 0 <= k < n && Outbox.Kept(fates[k]) ==> AsSet(rows[k].payload) <= KeptContents(rows, fates, n)
    ensures forall k :: 0 <= k < n ==> AsSet(rows[k].payload) <= Contents(rows, n)
  {
    if n > 0 { KeptContentsBounds(rows, fates, n - 1); }
  }

  lemma {:induction false} QueuedComesFromARow<B>(rows: Rows<B>, n: nat, e: Event<B>) returns (k: nat)
    requires n <= |rows| && e in Contents(rows, n)
    ensures k < n && e in rows[k].payload
  {
    if e in rows[n - 1].payload { k := n - 1; } else { k := QueuedComesFromARow(rows, n - 1, e); }
  }

  lemma GrowKeepsSafe<B>(s: State<B>, bytes: seq<byte>, reduce: Line -> seq<B>)
    requires Safe(s, reduce)
    ensures Safe(s.(file := s.file + bytes), reduce)
  {
    CursorOkGrows(s.cursor, s.file, bytes);
    CursorOkGrows(s.disk, s.file, bytes);
    LinesGrow(s.file, s.file + bytes);
  }

  lemma AppendKeepsQueue<B>(s: State<B>, events: seq<Event<B>>, reduce: Line -> seq<B>)
    requires QueueOk(s, reduce)
    requires forall e :: e in events ==> IsBlock(e, Lines(s.file), reduce)
    ensures QueueOk(Append(s, events), reduce)
    ensures Queued(Append(s, events).rows) == Queued(s.rows) + AsSet(events)
  {
    BatchesHold(s.rows, events, 0, s.seqNo);
    assert events[0..] == events;
  }

  lemma StoreKeepsMirror<B>(s: State<B>, events: seq<Event<B>>, reduce: Line -> seq<B>)
    requires MirrorOk(s, reduce)
    requires forall e :: e in events ==> IsBlock(e, Lines(s.file), reduce)
    ensures MirrorOk(Store(s, events), reduce)
  {
    InsertedKeys(s.mirror, events, |events|);
  }

  lemma SafeKept<B>(s: State<B>, step: Step, reduce: Line -> seq<B>)
    requires Safe(s, reduce) && Enabled(s, step, reduce)
    ensures Safe(Apply(s, step, reduce), reduce)
  {
    match step {
      case Grow(bytes) =>
        GrowKeepsSafe(s, bytes, reduce);
      case Enqueue(fromTop, readable, count) =>
        var events := Fresh(s, fromTop, readable, reduce);
        forall e | e in events[..count] ensures IsBlock(e, Lines(s.file), reduce) {
          FreshAreBlocks(s, fromTop, readable, reduce, e);
        }
        AppendKeepsQueue(s, events[..count], reduce);
      case Advance(readable) =>
        ReadFromCursor(s.cursor, s.file, readable);
      case Post(k) =>
        KeptContentsBounds(s.rows, seq(|s.rows|, i => Outbox.Waiting), |s.rows|);
        StoreKeepsMirror(s, s.rows[k].payload, reduce);
      case Rewrite(fates, now) =>
        SurvivorsHold(s.rows, fates, |s.rows|, now);
        KeptContentsBounds(s.rows, fates, |s.rows|);
      case _ =>
    }
  }

  // ------------------------------------------------------------ any run at all

  function Exec<B>(s: State<B>, steps: seq<Step>, reduce: Line -> seq<B>): Option<State<B>> {
    if steps == [] then Some(s)
    else
      match Exec(s, steps[..|steps| - 1], reduce)
      case None => None
      case Some(t) =>
        if Enabled(t, steps[|steps| - 1], reduce) then Some(Apply(t, steps[|steps| - 1], reduce)) else None
  }

  function Start<B>(file: seq<byte>): State<B> {
    State(file, Cursor(0, 0), Cursor(0, 0), false, [], 0, map[], false)
  }

  lemma {:induction false} RunsAreSafe<B>(file: seq<byte>, steps: seq<Step>, reduce: Line -> seq<B>)
    ensures Exec(Start(file), steps, reduce).Some? ==> Safe(Exec(Start(file), steps, reduce).value, reduce)
  {
    if steps == [] {
      assert file[..0] == [];
    } else {
      RunsAreSafe(file, steps[..|steps| - 1], reduce);
      if Exec(Start(file), steps, reduce).Some? {
        SafeKept(Exec(Start(file), steps[..|steps| - 1], reduce).value, steps[|steps| - 1], reduce);
      }
    }
  }

  /**
   * Whatever mix of growth, backfills, incremental reads, repeated posts, rewrites,
   * wipes and crashes: each position in the server's mirror holds the one block that
   * reducing the whole transcript at once puts there.
   */
  lemma MirrorIsPartOfWhole<B>(file: seq<byte>, steps: seq<Step>, reduce: Line -> seq<B>, k: Key)
    requires Exec(Start(file), steps, reduce).Some?
    ensures
      var s := Exec(Start(file), steps, reduce).value;
      var whole := Lines(s.file);
      k in s.mirror ==> Event(k, s.mirror[k]) in Events(whole, |whole|, 0, reduce)
  {
    RunsAreSafe(file, steps, reduce);
    var s := Exec(Start(file), steps, reduce).value;
    var whole := Lines(s.file);
    if k in s.mirror {
      EventsAreBlocks(whole, whole, |whole|, 0, reduce, Event(k, s.mirror[k]));
    }
  }
}
