/** The tap's main loop body as it runs, tied to the tick of the coverage results. */
module TapDaemon {
  import opened Common
  import opened Transcript
  import opened Tap
  import opened TapSystem
  import opened TapCoverage
  import Outbox

  lemma SurvivorsAscend<B>(rows: Rows<B>, fates: seq<Outbox.Fate>, now: int, top: nat)
    requires |rows| == |fates| && Outbox.Ascending(rows)
    requires forall k :: 0 <= k < |rows| ==> rows[k].id <= top
    ensures
      var out := Outbox.Survivors(rows, fates, |rows|, now);
      Outbox.Ascending(out) && forall k :: 0 <= k < |out| ==> out[k].id <= top
  {
    var from := Outbox.Surviving(fates, |rows|);
    var out := Outbox.Survivors(rows, fates, |rows|, now);
    forall i, j | 0 <= i < j < |from| ensures from[i] < from[j] { Outbox.SurvivingIsExact(fates, |rows|, i, j, 0); }
    Outbox.SurvivorsPartition(rows, fates, |rows|, now, 0);
    forall i | 0 <= i < |out| ensures from[i] < |rows| && out[i].id == rows[from[i]].id {
      Outbox.SurvivorsPartition(rows, fates, |rows|, now, i);
      Outbox.WrittenBackUnchanged(rows[from[i]], fates[from[i]], now, out[i]);
    }
  }

  /** The lines past an offset, as the read of the step system delivers them. */
  method ReadLines(file: seq<byte>, byteOffset: nat, chunk: nat -> nat)
    returns (lines: seq<Line>, newByteOffset: nat, ghost readable: nat)
    requires byteOffset <= |file|
    ensures readable <= |file| && ReadFrom(file, byteOffset, readable) == Tail(newByteOffset, lines)
  {
    var fileSize;
    lines, newByteOffset, fileSize, readable := ReadNew(file, byteOffset, chunk);
  }

  class Daemon<B(!new)> {
    var cursor: Cursor
    var disk: Cursor
    var lastAfk: bool
    var rows: Rows<B>
    var seqNo: nat

    ghost function View(file: seq<byte>, mirror: map<Key, B>, serverAfk: bool): State<B>
      reads this
    {
      State(file, cursor, disk, lastAfk, rows, seqNo, mirror, serverAfk)
    }

    /** Queued rows are in id order and below the next id. */
    ghost predicate Valid()
      reads this
    {
      Outbox.Ascending(rows) && forall k :: 0 <= k < |rows| ==> rows[k].id <= seqNo
    }

    constructor ()
      ensures Valid() && View([], map[], false) == Start([])
    {
      cursor, disk, lastAfk, rows, seqNo := Cursor(0, 0), Cursor(0, 0), false, [], 0;
    }

    method Enqueue(events: seq<Event<B>>, ghost file: seq<byte>, ghost mirror: map<Key, B>, ghost on: bool)
      requires Valid()
      modifies this`rows, this`seqNo
      ensures Valid()
      ensures View(file, mirror, on) == Append(old(View(file, mirror, on)), events)
    {
      BatchesHold(rows, events, 0, seqNo);
      rows, seqNo := EnqueueEvents(rows, events, seqNo);
    }

    /** The AFK edges: backfill the whole transcript, or discard what was not shipped. */
    method Edges(file: seq<byte>, afkOn: bool, enabled: bool, throws: bool, chunk: nat -> nat, reduce: Line -> seq<B>,
                 ghost mirror: map<Key, B>, ghost on: bool)
      returns (landed: bool, ghost read: Option<nat>)
      requires Valid()
      modifies this`rows, this`seqNo
      ensures Valid() && (read.Some? ==> read.value <= |file|)
      ensures View(file, mirror, on) ==
        EdgePart(old(View(file, mirror, on)), Env([], afkOn, enabled, read, [], None), reduce)
      ensures landed == (enabled && afkOn && !lastAfk && read.Some?)
    {
      var AfkTick(_, shouldBackfill, shouldClearOutbox) := ClassifyAfkTick(lastAfk, afkOn, enabled);
      landed, read := false, None;
      if shouldBackfill && !throws {
        var lines, _, readable := ReadLines(file, 0, chunk);
        var events := BuildEvents(lines, 0, reduce);
        read, landed := Some(readable), true;
        Enqueue(events, file, mirror, on);
      }
      if shouldClearOutbox { rows := []; }
    }

    /** The incremental read: ship the new lines if asked to, then move and persist the cursor. */
    method ReadTail(file: seq<byte>, ship: bool, throws: bool, chunk: nat -> nat, reduce: Line -> seq<B>,
                    ghost mirror: map<Key, B>, ghost on: bool)
      returns (ghost read: Option<nat>)
      requires Valid() && cursor.byteOffset <= |file|
      modifies this
      ensures Valid() && (read.Some? ==> read.value <= |file|)
      ensures View(file, mirror, on) == TailPart(old(View(file, mirror, on)), read, ship, reduce)
    {
      if throws { return None; }
      var lines, newByteOffset, readable := ReadLines(file, cursor.byteOffset, chunk);
      read := Some(readable);
      if lines != [] {
        if ship {
          var events := BuildEvents(lines, cursor.lineNo, reduce);
          Enqueue(events, file, mirror, on);
        }
        cursor := Cursor(newByteOffset, cursor.lineNo + |lines|);
        disk := cursor;
      }
    }

    /** The device's or the dashboard's switches of the server's AFK state, one after the other. */
    method Switch(server: seq<bool>, table: ActivityTable<B>, ghost s: State<B>)
      requires s.mirror == table.rows && s.serverAfk == table.afk
      modifies table
      ensures table.rows == Switched(s, server).mirror && table.afk == Switched(s, server).serverAfk
    {
      for i := 0 to |server|
        invariant table.rows == Switched(s, server[..i]).mirror && table.afk == Switched(s, server[..i]).serverAfk
      {
        assert server[..i + 1][..i] == server[..i];
        table.SetDeviceAfk(server[i]);
      }
      assert server[..|server|] == server;
    }

    /** Let the server have the posts it stored, in order, with its AFK state switched in between. */
    method Deliver(sorted: Rows<B>, fates: seq<Outbox.Fate>, during: nat -> seq<bool>, table: ActivityTable<B>,
                   ghost s: State<B>)
      requires |fates| <= |sorted| && s.rows == sorted && s.mirror == table.rows && s.serverAfk == table.afk
      modifies table
      ensures
        var t := Posted(s, fates, during, |fates|);
        table.rows == t.mirror && table.afk == t.serverAfk
    {
      for k := 0 to |fates|
        invariant
          var t := Posted(s, fates, during, k);
          table.rows == t.mirror && table.afk == t.serverAfk
      {
        Switch(during(k), table, Posted(s, fates, during, k));
        if Stored(fates[k]) { table.InsertSessionActivity(sorted[k].payload); }
      }
    }

    /** Drain the queue, at most 32 posts; a dead token clears it and halts the daemon. */
    method DrainQueue(now: int, post: nat -> Outbox.Reply, stopping: nat -> bool, during: nat -> seq<bool>,
                      table: ActivityTable<B>, ghost file: seq<byte>)
      returns (halted: bool, fates: seq<Outbox.Fate>)
      requires Valid()
      modifies this`rows, table
      ensures Valid()
      ensures Outbox.Drained(old(rows), fates, now, Some(MAX_DRAIN_PER_TICK), post, stopping)
      ensures halted ==> rows == []
      ensures !halted ==> |fates| == |old(rows)|
      ensures !halted ==>
        View(file, table.rows, table.afk) == Drained(old(View(file, table.rows, table.afk)), fates, during, now)
    {
      ghost var s := View(file, table.rows, table.afk);
      Outbox.SortedStays(rows);
      var sorted := Outbox.SortById(rows);
      var survivors, shipped;
      survivors, shipped, halted, fates := Outbox.Drain(sorted, now, Some(MAX_DRAIN_PER_TICK), post, stopping);
      Deliver(sorted, fates, during, table, s);
      rows := survivors;
      if !halted {
        SurvivorsAscend(s.rows, fates, now, seqNo);
        PostedFacts(s, fates, during, |fates|);
      }
    }

    /**
     * One pass of the main loop over an append-only transcript that grows by `between`
     * after the backfill's read. Unless the token turns out dead, daemon, transcript and
     * server end up where the tick of the coverage results puts them.
     */
    method TickOnce(file: seq<byte>, between: seq<byte>, afkOn: bool, enabled: bool,
                    backfillThrows: bool, tailThrows: bool, chunk: nat -> nat, reduce: Line -> seq<B>,
                    now: int, post: nat -> Outbox.Reply, stopping: nat -> bool, during: nat -> seq<bool>,
                    table: ActivityTable<B>)
      returns (halted: bool, ghost env: Env, ghost fates: seq<Outbox.Fate>)
      requires Valid() && cursor.byteOffset <= |file|
      modifies this, table
      ensures Valid() && env.before == [] && env.afkOn == afkOn && env.enabled == enabled && env.between == between
      ensures Possible(old(View(file, table.rows, table.afk)), env)
      ensures
        var before := old(View(file, table.rows, table.afk));
        && (enabled && afkOn && !halted ==> |fates| == |BeforeDrain(before, env, reduce).rows|)
        && (!halted ==> View(file + between, table.rows, table.afk) == RunTick(before, env, fates, during, now, reduce))
        && (halted ==> rows == [])
    {
      hide EdgePart, TailPart, BeforeDrain, Drained;
      ghost var s := View(file, table.rows, table.afk);
      var landed, backfill := Edges(file, afkOn, enabled, backfillThrows, chunk, reduce, table.rows, table.afk);
      ghost var edge := View(file, table.rows, table.afk);
      ghost var tail := ReadTail(file + between, enabled && afkOn && !landed, tailThrows, chunk, reduce,
                                 table.rows, table.afk);
      ghost var tailed := View(file + between, table.rows, table.afk);
      if !afkOn {
        lastAfk := false;
      } else if landed || lastAfk {
        lastAfk := true;
      }
      env := Env([], afkOn, enabled, backfill, between, tail);
      TailKeepsLatch(edge.(file := file + between), tail, enabled && afkOn && !landed, reduce);
      BeforeDrainParts(s, env, edge, tailed, reduce);
      assert View(file + between, table.rows, table.afk) == BeforeDrain(s, env, reduce);
      halted, fates := false, [];
      if enabled && afkOn {
        halted, fates := DrainQueue(now, post, stopping, during, table, file + between);
      }
    }
  }
}
