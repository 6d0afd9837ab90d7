/**
 * The byte-offset transcript tailer. A cursor counts bytes, so that a line the
 * writer has only half flushed is read again once its newline lands.
 */
module Transcript {
  import opened Common

  const LF: byte := 10
  const CR: byte := 13

  // ------------------------------------------------------------ what the lines of a file are

  /** The complete, non-blank lines read so far, and the bytes of the line still being written. */
  datatype Scanned = Scanned(lines: seq<seq<byte>>, pending: seq<byte>)

  /** A terminated line without its terminator: a trailing CR is stripped, a blank is skipped. */
  function Content(raw: seq<byte>): seq<seq<byte>> {
    var text := if raw != [] && raw[|raw| - 1] == CR then raw[..|raw| - 1] else raw;
    if text == [] then [] else [text]
  }

  function Feed(s: Scanned, b: byte): Scanned {
    if b == LF then Scanned(s.lines + Content(s.pending), []) else Scanned(s.lines, s.pending + [b])
  }

  function Scan(buf: seq<byte>): Scanned {
    if buf == [] then Scanned([], []) else Feed(Scan(buf[..|buf| - 1]), buf[|buf| - 1])
  }

  function Lines(buf: seq<byte>): seq<seq<byte>> {
    Scan(buf).lines
  }

  /** How many bytes the complete lines take up, terminators and blank lines included. */
  function Consumed(buf: seq<byte>): int {
    |buf| - |Scan(buf).pending|
  }

  ghost predicate NoLF(buf: seq<byte>) {
    forall j :: 0 <= j < |buf| ==> buf[j] != LF
  }

  lemma ScanSnoc(buf: seq<byte>, b: byte)
    ensures Scan(buf + [b]) == Feed(Scan(buf), b)
  {
    assert (buf + [b])[..|buf|] == buf;
  }

  /** The pending bytes are the end of the buffer, after the last newline. */
  lemma {:induction false} PendingIsTail(buf: seq<byte>)
    ensures 0 <= Consumed(buf) <= |buf|
    ensures Scan(buf).pending == buf[Consumed(buf)..] && NoLF(Scan(buf).pending)
    ensures Consumed(buf) > 0 ==> buf[Consumed(buf) - 1] == LF
  {
    if buf != [] { PendingIsTail(buf[..|buf| - 1]); }
  }

  lemma {:induction false} ScanNoLF(buf: seq<byte>)
    requires NoLF(buf)
    ensures Scan(buf) == Scanned([], buf)
  {
    if buf != [] {
      ScanNoLF(buf[..|buf| - 1]);
      assert buf == buf[..|buf| - 1] + [buf[|buf| - 1]];
    }
  }

  function Prepend(lines: seq<seq<byte>>, s: Scanned): Scanned {
    Scanned(lines + s.lines, s.pending)
  }

  lemma FeedPrepend(lines: seq<seq<byte>>, s: Scanned, b: byte)
    ensures Feed(Prepend(lines, s), b) == Prepend(lines, Feed(s, b))
  {
  }

  /**
   * Cutting a file anywhere loses nothing: the lines of the whole are the lines of
   * the first part, then those of its partial tail joined to the rest.
   */
  lemma {:induction false} ScanSplit(a: seq<byte>, b: seq<byte>)
    ensures Scan(a + b) == Prepend(Scan(a).lines, Scan(Scan(a).pending + b))
  {
    var p := Scan(a).pending;
    if b == [] {
      assert a + b == a && p + b == p;
      PendingIsTail(a);
      ScanNoLF(p);
    } else {
      var init, last := b[..|b| - 1], b[|b| - 1];
      ScanSplit(a, init);
      FeedPrepend(Scan(a).lines, Scan(p + init), last);
      ScanSnoc(a + init, last);
      ScanSnoc(p + init, last);
      assert a + b == a + init + [last];
      assert p + b == p + init + [last];
    }
  }

  /** From a line boundary on, reading continues the line list exactly where it stopped. */
  lemma LinesFromBoundary(a: seq<byte>, b: seq<byte>)
    requires Scan(a).pending == []
    ensures Scan(a + b) == Prepend(Lines(a), Scan(b))
  {
    hide Scan;
    ScanSplit(a, b);
    assert Scan(a).pending + b == b;
  }

  /** Appending to a file only appends to its lines. */
  lemma LinesGrow(file: seq<byte>, grown: seq<byte>)
    requires file <= grown
    ensures Lines(file) <= Lines(grown)
  {
    hide Scan;
    assert grown == file + grown[|file|..];
    ScanSplit(file, grown[|file|..]);
  }

  /** The bytes before the partial tail are complete lines and give all the lines. */
  lemma {:induction false} ConsumedPartSuffices(buf: seq<byte>)
    ensures 0 <= Consumed(buf) <= |buf|
    ensures Scan(buf[..Consumed(buf)]) == Scanned(Lines(buf), [])
  {
    PendingIsTail(buf);
    if buf != [] {
      var init, last := buf[..|buf| - 1], buf[|buf| - 1];
      if last == LF {
        assert buf[..|buf|] == buf;
      } else {
        PendingIsTail(init);
        ConsumedPartSuffices(init);
        assert buf[..Consumed(buf)] == init[..Consumed(init)];
      }
    }
  }

  lemma ContentOfSlice(buf: seq<byte>, start: nat, i: nat, end: nat)
    requires start <= i <= |buf|
    requires end == if i > start && buf[i - 1] == CR then i - 1 else i
    ensures Content(buf[start..i]) == if end > start then [buf[start..end]] else []
  {
    var raw := buf[start..i];
    if raw != [] {
      assert raw[..|raw| - 1] == buf[start..i - 1];
    }
  }

  /** The first i bytes give these lines, and the line under way began at `start`. */
  ghost predicate ScannedTo(buf: seq<byte>, i: nat, lines: seq<seq<byte>>, start: nat) {
    start <= i <= |buf| && Scan(buf[..i]) == Scanned(lines, buf[start..i])
  }

  /** A byte that is no newline joins the pending bytes. */
  lemma LineGoesOn(buf: seq<byte>, lines: seq<seq<byte>>, start: nat, i: nat)
    requires i < |buf| && buf[i] != LF && ScannedTo(buf, i, lines, start)
    ensures ScannedTo(buf, i + 1, lines, start)
  {
    assert buf[..i + 1] == buf[..i] + [buf[i]];
    ScanSnoc(buf[..i], buf[i]);
    assert buf[start..i + 1] == buf[start..i] + [buf[i]];
  }

  /** A newline ends a line, which counts unless it is blank. */
  lemma LineEnds(buf: seq<byte>, lines: seq<seq<byte>>, start: nat, i: nat, end: nat)
    requires i < |buf| && buf[i] == LF && ScannedTo(buf, i, lines, start)
    requires end == if i > start && buf[i - 1] == CR then i - 1 else i
    ensures ScannedTo(buf, i + 1, if end > start then lines + [buf[start..end]] else lines, i + 1)
  {
    assert buf[..i + 1] == buf[..i] + [buf[i]];
    ScanSnoc(buf[..i], buf[i]);
    ContentOfSlice(buf, start, i, end);
    assert lines + [] == lines;
  }

  // ------------------------------------------------------------ the code

  /** Split a buffer into complete lines and the count of trailing partial bytes. */
  method SplitLines(buf: seq<byte>) returns (lines: seq<seq<byte>>, partial: nat)
    ensures lines == Lines(buf) && partial == |buf| - Consumed(buf) <= |buf|
  {
    lines := [];
    var start := 0;
    for i := 0 to |buf|
      invariant ScannedTo(buf, i, lines, start)
    {
      if buf[i] == LF {
        var end := i;
        if end > start && buf[end - 1] == CR { end := end - 1; }
        LineEnds(buf, lines, start, i, end);
        if end > start { lines := lines + [buf[start..end]]; }
        start := i + 1;
      } else {
        LineGoesOn(buf, lines, start, i);
      }
    }
    assert buf[..|buf|] == buf;
    partial := |buf| - start;
  }

  /** The inner read loop: read until `length` bytes are in or a call delivers nothing. */
  method ReadUpTo(length: nat, chunk: nat -> nat) returns (read: nat)
    ensures read <= length
    ensures (forall k :: chunk(k) > 0) ==> read == length
  {
    read := 0;
    var k := 0;
    while read < length
      invariant read <= length
    {
      var n := if chunk(k) <= length - read then chunk(k) else length - read;
      if n == 0 { break; }
      read, k := read + n, k + 1;
    }
  }

  /**
   * Read from `byteOffset` to the end of the file and return the complete lines; a
   * file that shrank is read from the top. `chunk(k)` bounds what the k-th read call
   * delivers; 0 ends the reading early.
   */
  method ReadNew(file: seq<byte>, byteOffset: nat, chunk: nat -> nat)
    returns (lines: seq<seq<byte>>, newByteOffset: nat, fileSize: nat, ghost readable: nat)
    ensures fileSize == |file| && readable <= |file|
    ensures byteOffset <= |file| ==>
      Tail(newByteOffset, lines) == TailStep(Tail(byteOffset, []), Tick(file, readable))
    ensures
      var start := if |file| < byteOffset then 0 else byteOffset;
      && start <= newByteOffset <= |file|
      && lines == Lines(file[start..newByteOffset])
      && Scan(file[start..newByteOffset]).pending == []
      && ((forall k :: chunk(k) > 0) ==> newByteOffset == start + Consumed(file[start..]) && lines == Lines(file[start..]))
  {
    fileSize := |file|;
    var start := byteOffset;
    if fileSize < byteOffset { start := 0; }
    if fileSize <= start {
      return [], start, fileSize, |file|;
    }
    var length := fileSize - start;
    var read := ReadUpTo(length, chunk);
    var slice := file[start..start + read];
    readable := start + read;
    var partial;
    lines, partial := SplitLines(slice);
    newByteOffset := start + (|slice| - partial);
    ConsumedPartSuffices(slice);
    assert file[start..newByteOffset] == slice[..Consumed(slice)];
    assert read == length ==> slice == file[start..];
  }

  // ------------------------------------------------------------ whole tails

  /** One read of a tail: the file at that moment, and how many bytes of it were readable. */
  datatype Tick = Tick(file: seq<byte>, readable: nat)

  /** The file only grows, and reads stay inside it. */
  ghost predicate AppendOnly(ticks: seq<Tick>) {
    && (forall i :: 0 <= i < |ticks| ==> ticks[i].readable <= |ticks[i].file|)
    && (forall i, j :: 0 <= i <= j < |ticks| ==> ticks[i].file <= ticks[j].file)
  }

  datatype Tail = Tail(offset: nat, lines: seq<seq<byte>>)

  /** What one read from the cursor adds: nothing unless the file reaches past it. */
  function TailStep(t: Tail, tick: Tick): Tail
    requires tick.readable <= |tick.file|
  {
    if tick.readable <= t.offset then t
    else
      var slice := tick.file[t.offset..tick.readable];
      PendingIsTail(slice);
      Tail(t.offset + Consumed(slice), t.lines + Lines(slice))
  }

  /** The cursor and all lines delivered after a sequence of reads from a fresh cursor. */
  function TailAfter(ticks: seq<Tick>): Tail
    requires forall i :: 0 <= i < |ticks| ==> ticks[i].readable <= |ticks[i].file|
  {
    if ticks == [] then Tail(0, []) else TailStep(TailAfter(ticks[..|ticks| - 1]), ticks[|ticks| - 1])
  }

  /** The cursor sits at a line boundary and the lines so far are those below it. */
  ghost predicate UpTo(t: Tail, file: seq<byte>) {
    t.offset <= |file| && Scan(file[..t.offset]) == Scanned(t.lines, [])
  }

  lemma TailStepKeeps(t: Tail, tick: Tick)
    requires tick.readable <= |tick.file| && UpTo(t, tick.file)
    ensures UpTo(TailStep(t, tick), tick.file)
    ensures tick.readable == |tick.file| ==>
      TailStep(t, tick).lines == Lines(tick.file) && TailStep(t, tick).offset == Consumed(tick.file)
  {
    if tick.readable > t.offset {
      ReadOnInFile(tick.file, t.offset, tick.readable);
    } else {
      assert tick.readable == |tick.file| ==> tick.file[..t.offset] == tick.file;
    }
  }

  lemma SliceParts<T>(file: seq<T>, lo: nat, hi: nat, k: nat)
    requires lo <= hi <= |file| && k <= hi - lo
    ensures file[..lo + k] == file[..lo] + file[lo..hi][..k]
    ensures hi == |file| ==> file == file[..lo] + file[lo..hi]
  {
  }

  lemma ReadOnInFile(file: seq<byte>, lo: nat, hi: nat)
    requires lo <= hi <= |file| && Scan(file[..lo]).pending == []
    ensures
      var slice := file[lo..hi];
      && 0 <= Consumed(slice) <= |slice|
      && Scan(file[..lo + Consumed(slice)]) == Scanned(Lines(file[..lo]) + Lines(slice), [])
      && (hi == |file| ==> Scan(file) == Scanned(Lines(file[..lo]) + Lines(slice), Scan(slice).pending))
  {
    var below, slice := file[..lo], file[lo..hi];
    ReadOn(below, slice);
    SliceParts(file, lo, hi, Consumed(slice));
  }

  /** Reading a slice from a line boundary. */
  lemma ReadOn(below: seq<byte>, slice: seq<byte>)
    requires Scan(below).pending == []
    ensures 0 <= Consumed(slice) <= |slice|
    ensures Scan(below + slice[..Consumed(slice)]) == Scanned(Lines(below) + Lines(slice), [])
    ensures Scan(below + slice) == Scanned(Lines(below) + Lines(slice), Scan(slice).pending)
  {
    hide Scan;
    ConsumedPartSuffices(slice);
    LinesFromBoundary(below, slice[..Consumed(slice)]);
    LinesFromBoundary(below, slice);
  }

  /**
   * Chunk invariance: however an append-only file grew and however its reads were cut,
   * the lines delivered are exactly the lines of the bytes below the cursor, the cursor
   * is 0 or just past a newline, and a read that reaches the end of the file brings
   * the total to the lines of the whole file.
   */
  lemma {:induction false} TailIsChunkInvariant(ticks: seq<Tick>)
    requires ticks != [] && AppendOnly(ticks)
    ensures
      var t := TailAfter(ticks);
      var last := ticks[|ticks| - 1];
      && UpTo(t, last.file)
      && (t.offset > 0 ==> last.file[t.offset - 1] == LF)
      && (last.readable == |last.file| ==> t.lines == Lines(last.file) && t.offset == Consumed(last.file))
    decreases |ticks|
  {
    var before := ticks[..|ticks| - 1];
    var last := ticks[|ticks| - 1];
    var prev := TailAfter(before);
    if before != [] {
      TailIsChunkInvariant(before);
      var earlier := before[|before| - 1].file;
      assert earlier <= last.file;
      assert last.file[..prev.offset] == earlier[..prev.offset];
    }
    TailStepKeeps(prev, last);
    PendingIsTail(last.file[..TailAfter(ticks).offset]);
  }

  // ------------------------------------------------------------ the writer's side

  /** A line as a writer appends it. */
  datatype Written = Written(text: seq<byte>, crlf: bool)

  /** Any text without a newline; only a blank, or a text ending in CR, is not read back as it is. */
  ghost predicate Plain(w: Written) {
    NoLF(w.text) && (w.text != [] ==> w.text[|w.text| - 1] != CR)
  }

  function Render(ws: seq<Written>): seq<byte> {
    if ws == [] then []
    else ws[0].text + (if ws[0].crlf then [CR, LF] else [LF]) + Render(ws[1..])
  }

  function NonBlank(ws: seq<Written>): seq<seq<byte>> {
    if ws == [] then []
    else (if ws[0].text == [] then [] else [ws[0].text]) + NonBlank(ws[1..])
  }

  /**
   * Round trip: each complete non-blank line a writer appended is read back exactly
   * once, in order, whatever its terminator, and an unterminated tail is withheld.
   */
  lemma {:induction false} WrittenLinesReadBack(ws: seq<Written>, tail: seq<byte>)
    requires forall i :: 0 <= i < |ws| ==> Plain(ws[i])
    requires NoLF(tail)
    ensures Scan(Render(ws) + tail) == Scanned(NonBlank(ws), tail)
  {
    if ws == [] {
      assert Render(ws) + tail == tail;
      ScanNoLF(tail);
    } else {
      var line := ws[0].text + if ws[0].crlf then [CR, LF] else [LF];
      OneLineReadsBack(ws[0]);
      WrittenLinesReadBack(ws[1..], tail);
      assert Render(ws) + tail == line + (Render(ws[1..]) + tail);
      LinesFromBoundary(line, Render(ws[1..]) + tail);
    }
  }

  lemma OneLineReadsBack(w: Written)
    requires Plain(w)
    ensures Scan(w.text + if w.crlf then [CR, LF] else [LF]) ==
            Scanned(if w.text == [] then [] else [w.text], [])
  {
    ScanNoLF(w.text);
    if w.crlf {
      assert w.text + [CR, LF] == w.text + [CR] + [LF];
      ScanSnoc(w.text, CR);
      ScanSnoc(w.text + [CR], LF);
    } else {
      ScanSnoc(w.text, LF);
    }
  }
}
