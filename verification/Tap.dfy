/**
 * The tap daemon and the server's mirror of a session: tail the transcript, reduce
 * its lines to blocks, queue them while the user is away, and insert them once per
 * (line, block) position.
 *
 * The reducer of a line is a parameter; a line that is not JSON reduces to no block.
 */
module Tap {
  import opened Common
  import opened Transcript
  import Outbox

  const MAX_EVENTS_PER_BATCH: nat := 500
  const MAX_DRAIN_PER_TICK: nat := 32

  type Line = seq<byte>

  datatype Key = Key(lineNo: nat, blockIdx: nat)

  datatype Event<+B> = Event(key: Key, block: B)

  datatype Cursor = Cursor(byteOffset: nat, lineNo: nat)

  type Rows<+B> = seq<Outbox.Row<seq<Event<B>>>>

  // ------------------------------------------------------------ lines to events

  /** Is `e` the block at its position when the whole list of lines is reduced at once? */
  ghost predicate IsBlock<B>(e: Event<B>, lines: seq<Line>, reduce: Line -> seq<B>) {
    && e.key.lineNo < |lines|
    && e.key.blockIdx < |reduce(lines[e.key.lineNo])|
    && e.block == reduce(lines[e.key.lineNo])[e.key.blockIdx]
  }

  /** The first m blocks of a line as events. */
  function LineEvents<B>(blocks: seq<B>, lineNo: nat, m: nat): seq<Event<B>>
    requires m <= |blocks|
  {
    if m == 0 then [] else LineEvents(blocks, lineNo, m - 1) + [Event(Key(lineNo, m - 1), blocks[m - 1])]
  }

  /** The events of the first n lines, numbered from `base`. */
  function Events<B>(lines: seq<Line>, n: nat, base: nat, reduce: Line -> seq<B>): seq<Event<B>>
    requires n <= |lines|
  {
    if n == 0 then []
    else
      var blocks := reduce(lines[n - 1]);
      Events(lines, n - 1, base, reduce) + LineEvents(blocks, base + n - 1, |blocks|)
  }

  method BuildEvents<B>(lines: seq<Line>, baseLineNo: nat, reduce: Line -> seq<B>) returns (events: seq<Event<B>>)
    ensures events == Events(lines, |lines|, baseLineNo, reduce)
  {
    events := [];
    for i := 0 to |lines|
      invariant events == Events(lines, i, baseLineNo, reduce)
    {
      var extracted := reduce(lines[i]);
      for b := 0 to |extracted|
        invariant events == Events(lines, i, baseLineNo, reduce) + LineEvents(extracted, baseLineNo + i, b)
      {
        events := events + [Event(Key(baseLineNo + i, b), extracted[b])];
      }
    }
  }

  lemma {:induction false} LineEventsAre<B>(blocks: seq<B>, lineNo: nat, m: nat, e: Event<B>)
    requires m <= |blocks|
    ensures e in LineEvents(blocks, lineNo, m) <==>
      e.key.lineNo == lineNo && e.key.blockIdx < m && e.block == blocks[e.key.blockIdx]
  {
    if m > 0 { LineEventsAre(blocks, lineNo, m - 1, e); }
  }

  /**
   * Position keys do not depend on how the lines were batched: numbering lines from
   * `base` yields exactly the blocks of those lines at their place in the whole list.
   */
  lemma {:induction false} EventsAreBlocks<B>(whole: seq<Line>, lines: seq<Line>, n: nat, base: nat,
                                              reduce: Line -> seq<B>, e: Event<B>)
    requires n <= |lines| && base + n <= |whole|
    requires forall i :: 0 <= i < n ==> lines[i] == whole[base + i]
    ensures e in Events(lines, n, base, reduce) <==> base <= e.key.lineNo < base + n && IsBlock(e, whole, reduce)
  {
    if n > 0 {
      EventsAreBlocks(whole, lines, n - 1, base, reduce, e);
      var blocks := reduce(lines[n - 1]);
      LineEventsAre(blocks, base + n - 1, |blocks|, e);
    }
  }

  // ------------------------------------------------------------ the queue

  ghost function AsSet<B>(events: seq<Event<B>>): set<Event<B>> {
    set e | e in events
  }

  /** The events held by the first n rows. */
  ghost function Contents<B>(rows: Rows<B>, n: nat): set<Event<B>>
    requires n <= |rows|
  {
    if n == 0 then {} else Contents(rows, n - 1) + AsSet(rows[n - 1].payload)
  }

  ghost function Queued<B>(rows: Rows<B>): set<Event<B>> {
    Contents(rows, |rows|)
  }

  lemma {:induction false} ContentsPrefix<B>(rows: Rows<B>, more: Rows<B>, n: nat)
    requires n <= |rows|
    ensures Contents(rows + more, n) == Contents(rows, n)
  {
    if n > 0 { ContentsPrefix(rows, more, n - 1); }
  }

  lemma QueuedSnoc<B>(rows: Rows<B>, row: Outbox.Row<seq<Event<B>>>)
    ensures Queued(rows + [row]) == Queued(rows) + AsSet(row.payload)
  {
    ContentsPrefix(rows, [row], |rows|);
  }

  /** The end of the batch that starts at i. */
  function BatchEnd(length: nat, i: nat): nat {
    if i + MAX_EVENTS_PER_BATCH < length then i + MAX_EVENTS_PER_BATCH else length
  }

  /** The rows for the events from position i on, numbered after `seqNo`. */
  function Batches<B>(events: seq<Event<B>>, i: nat, seqNo: nat): Rows<B>
    requires i <= |events|
    decreases |events| - i
  {
    if i == |events| then []
    else
      var j := BatchEnd(|events|, i);
      [Outbox.Row(seqNo + 1, events[i..j], 0, 0)] + Batches(events, j, seqNo + 1)
  }

  /** Append events to the queue in bounded batches. */
  method EnqueueEvents<B>(rows: Rows<B>, events: seq<Event<B>>, seqNo: nat) returns (queued: Rows<B>, lastSeq: nat)
    ensures queued == rows + Batches(events, 0, seqNo)
    ensures lastSeq == seqNo + |Batches(events, 0, seqNo)|
  {
    queued, lastSeq := rows, seqNo;
    var i := 0;
    while i < |events|
      invariant 0 <= i <= |events|
      invariant queued + Batches(events, i, lastSeq) == rows + Batches(events, 0, seqNo)
      invariant lastSeq + |Batches(events, i, lastSeq)| == seqNo + |Batches(events, 0, seqNo)|
    {
      var j := BatchEnd(|events|, i);
      lastSeq := lastSeq + 1;
      var row := Outbox.Row(lastSeq, events[i..j], 0, 0);
      assert queued + [row] + Batches(events, j, lastSeq) == queued + ([row] + Batches(events, j, lastSeq));
      queued, i := queued + [row], j;
    }
  }

  /** Batching neither loses nor invents an event; every batch is non-empty, bounded, and due at once. */
  lemma {:induction false} BatchesHold<B>(rows: Rows<B>, events: seq<Event<B>>, i: nat, seqNo: nat)
    requires i <= |events|
    ensures Queued(rows + Batches(events, i, seqNo)) == Queued(rows) + AsSet(events[i..])
    ensures forall k :: 0 <= k < |Batches(events, i, seqNo)| ==>
      && 0 < |Batches(events, i, seqNo)[k].payload| <= MAX_EVENTS_PER_BATCH
      && Batches(events, i, seqNo)[k].id == seqNo + 1 + k
      && Batches(events, i, seqNo)[k].nextAttemptAt == 0 && Batches(events, i, seqNo)[k].attemptCount == 0
    decreases |events| - i
  {
    if i == |events| {
      assert rows + [] == rows;
    } else {
      var j := BatchEnd(|events|, i);
      var row := Outbox.Row(seqNo + 1, events[i..j], 0, 0);
      BatchesHold(rows + [row], events, j, seqNo + 1);
      QueuedSnoc(rows, row);
      assert rows + ([row] + Batches(events, j, seqNo + 1)) == rows + [row] + Batches(events, j, seqNo + 1);
      assert events[i..] == events[i..j] + events[j..];
    }
  }

  // ------------------------------------------------------------ the server's mirror

  /** Insert the first n events, each doing nothing when its position is already taken. */
  function Inserted<B>(mirror: map<Key, B>, events: seq<Event<B>>, n: nat): map<Key, B>
    requires n <= |events|
  {
    if n == 0 then mirror
    else
      var before := Inserted(mirror, events, n - 1);
      var e := events[n - 1];
      if e.key in before then before else before[e.key := e.block]
  }

  /** The mirror as the table it is: guarded by the device's AFK state, wiped when that turns off. */
  class ActivityTable<B> {
    var rows: map<Key, B>
    var afk: bool

    constructor ()
      ensures rows == map[] && !afk
    {
      rows, afk := map[], false;
    }

    method InsertSessionActivity(events: seq<Event<B>>)
      modifies `rows
      ensures rows == if afk then Inserted(old(rows), events, |events|) else old(rows)
    {
      if !afk { return; }
      for n := 0 to |events|
        invariant rows == Inserted(old(rows), events, n)
      {
        if events[n].key !in rows { rows := rows[events[n].key := events[n].block]; }
      }
    }

    method SetDeviceAfk(on: bool)
      modifies this
      ensures afk == on && rows == if old(afk) && !on then map[] else old(rows)
    {
      if afk && !on { rows := map[]; }
      afk := on;
    }
  }

  /** Inserting adds the positions of the events and never changes a position already filled. */
  lemma {:induction false} InsertedKeys<B>(mirror: map<Key, B>, events: seq<Event<B>>, n: nat)
    requires n <= |events|
    ensures forall k :: k in mirror ==> k in Inserted(mirror, events, n) && Inserted(mirror, events, n)[k] == mirror[k]
    ensures forall k :: k in Inserted(mirror, events, n) && k !in mirror ==>
      Event(k, Inserted(mirror, events, n)[k]) in events
    ensures forall i :: 0 <= i < n ==> events[i].key in Inserted(mirror, events, n)
  {
    if n > 0 {
      InsertedKeys(mirror, events, n - 1);
      assert events[n - 1] == Event(events[n - 1].key, events[n - 1].block);
    }
  }
}
