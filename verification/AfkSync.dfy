/**
 * AFK synchronisation between one machine and the cloud: the local value and its dirty
 * flag, the command-line toggle, heartbeats that re-assert a dirty value, and pushes down
 * any number of event streams. Every message may be delayed, and every one may be lost.
 */
module AfkSync {
  import opened Common

  // ------------------------------------------------------------ the device's decisions

  /** A pushed value that is no AFK state reads as None. */
  predicate ShouldAdoptDownstreamAfk(pushed: Option<bool>, dirty: bool, local: bool) {
    !dirty && pushed.Some? && pushed.value != local
  }

  predicate ShouldClearDirty(wasDirty: bool, success: bool, echo: Option<bool>, local: bool) {
    wasDirty && success && echo == Some(local)
  }

  /** The two files of the machine: the AFK value and its dirty flag. */
  datatype Files = Files(local: bool, dirty: bool)

  function Pushed(f: Files, pushed: Option<bool>): Files {
    if ShouldAdoptDownstreamAfk(pushed, f.dirty, f.local) then f.(local := pushed.value)
    else if f.dirty && pushed == Some(f.local) then f.(dirty := false)
    else f
  }

  /** The answer to a heartbeat that asserted a value: cleared only if that is still the local one. */
  function Answered(f: Files, asserted: bool, echo: Option<bool>): Files {
    if f.local == asserted && ShouldClearDirty(true, true, echo, asserted) then f.(dirty := false) else f
  }

  class Device {
    var afk: bool
    var dirty: bool

    ghost function View(): Files
      reads this
    {
      Files(afk, dirty)
    }

    /** A state event from an event stream. */
    method OnPush(pushed: Option<bool>)
      modifies this
      ensures View() == Pushed(old(View()), pushed)
      ensures old(dirty) ==> afk == old(afk)
      ensures !old(dirty) && pushed.Some? ==> afk == pushed.value && !dirty
    {
      if !dirty && pushed.Some? && pushed.value != afk {
        afk := pushed.value;
      } else if pushed.Some? && dirty && pushed.value == afk {
        dirty := false;
      }
    }

    /** The answer to a heartbeat that was sent with the flag and value it found. */
    method OnHeartbeatAnswer(wasDirty: bool, asserted: bool, success: bool, echo: Option<bool>)
      modifies this`dirty
      ensures View() == if wasDirty && success then Answered(old(View()), asserted, echo) else old(View())
    {
      if wasDirty && success {
        if afk == asserted && ShouldClearDirty(wasDirty, true, echo, asserted) { dirty := false; }
      }
    }

    /**
     * One heartbeat: read flag and value, send, and handle the answer. While it is under
     * way other processes may leave the two files as `meanwhile`. It never changes the
     * value, and takes the flag off only if it asserted the very value that the server
     * confirms and that is still the local one.
     */
    method Heartbeat(meanwhile: Files, success: bool, echo: Option<bool>) returns (asserted: Option<bool>)
      modifies this
      ensures asserted == if old(dirty) then Some(old(afk)) else None
      ensures afk == meanwhile.local && (dirty ==> meanwhile.dirty)
      ensures meanwhile.dirty ==> (!dirty <==> success && asserted == Some(meanwhile.local) && echo == asserted)
    {
      var wasDirty, value := dirty, afk;
      asserted := if wasDirty then Some(value) else None;
      afk, dirty := meanwhile.local, meanwhile.dirty;
      OnHeartbeatAnswer(wasDirty, value, success, echo);
    }

    /**
     * The toggle command, which may die after any of its steps: flag, value, POST, clear.
     * It leaves the new value behind only with the flag set or the POST confirmed, and
     * clears the flag only for the value the POST carried.
     */
    method Afk(next: bool, survives: nat, confirmed: bool)
      modifies this
      ensures afk == old(afk) || afk == next
      ensures afk != old(afk) ==> dirty || confirmed
      ensures survives >= 1 && !(survives >= 3 && confirmed) ==> dirty
      ensures survives >= 3 ==> afk == next && dirty == !confirmed
      ensures survives == 0 ==> View() == old(View())
    {
      if survives == 0 { return; }
      dirty := true;
      if survives == 1 { return; }
      afk := next;
      if survives == 2 { return; }
      if confirmed { dirty := false; }
    }
  }

  // ------------------------------------------------------------ the whole system

  /** The server's side of a stream: what it last pushed, and what has not arrived yet. */
  datatype Stream = Stream(lastAfk: Option<bool>, frames: seq<bool>)

  /** A heartbeat: sent, compared with the cloud's value by the server, or answered. */
  datatype BeatPhase = Sent | Compared(differs: bool) | Echoed

  datatype Beat = Beat(asserted: Option<bool>, phase: BeatPhase)

  /** A toggle command: flag set, value written, or POST stored by the server. */
  datatype CliPhase = Marked | Written | Landed

  datatype Cli = Cli(next: bool, phase: CliPhase)

  datatype State = State(
    files: Files, cloud: bool, streams: map<nat, Stream>, beats: map<nat, Beat>, clis: map<nat, Cli>)

  datatype Step =
    | CliStart(c: nat, next: bool)
    | CliWrite(c: nat)
    | PostLands(c: nat)
    | PostConfirmed(c: nat)
    | CliEnds(c: nat)                // the POST failed or was lost, or the process died
    | Dashboard(value: bool)
    | BeatStarts(b: nat)
    | BeatCompared(b: nat)
    | BeatStored(b: nat)
    | BeatAnswered(b: nat)
    | BeatLost(b: nat)
    | Connect(k: nat)                // a stream opens, or reopens after a loss
    | Disconnect(k: nat)
    | Flush(k: nat)
    | Deliver(k: nat)

  predicate InPhase(s: State, c: nat, phase: CliPhase) {
    c in s.clis && s.clis[c].phase == phase
  }

  predicate Enabled(s: State, step: Step) {
    match step
    case CliStart(c, _) => c !in s.clis
    case CliWrite(c) => InPhase(s, c, Marked)
    case PostLands(c) => InPhase(s, c, Written)
    case PostConfirmed(c) => InPhase(s, c, Landed)
    case CliEnds(c) => c in s.clis
    case Dashboard(_) => true
    case BeatStarts(b) => b !in s.beats
    case BeatCompared(b) => b in s.beats && s.beats[b].phase.Sent?
    case BeatStored(b) => b in s.beats && s.beats[b].phase.Compared?
    case BeatAnswered(b) => b in s.beats && s.beats[b].phase.Echoed?
    case BeatLost(b) => b in s.beats
    case Connect(_) => true
    case Disconnect(k) => k in s.streams
    case Flush(k) => k in s.streams
    case Deliver(k) => k in s.streams && s.streams[k].frames != []
  }

  function Apply(s: State, step: Step): State
    requires Enabled(s, step)
  {
    match step
    case CliStart(c, next) => s.(clis := s.clis[c := Cli(next, Marked)], files := s.files.(dirty := true))
    case CliWrite(c) =>
      s.(clis := s.clis[c := s.clis[c].(phase := Written)], files := s.files.(local := s.clis[c].next))
    case PostLands(c) => s.(clis := s.clis[c := s.clis[c].(phase := Landed)], cloud := s.clis[c].next)
    case PostConfirmed(c) => s.(clis := s.clis - {c}, files := s.files.(dirty := false))
    case CliEnds(c) => s.(clis := s.clis - {c})
    case Dashboard(value) => s.(cloud := value)
    case BeatStarts(b) =>
      s.(beats := s.beats[b := Beat(if s.files.dirty then Some(s.files.local) else None, Sent)])
    case BeatCompared(b) =>
      s.(beats := s.beats[b := s.beats[b].(phase := Compared(
           s.beats[b].asserted.Some? && s.beats[b].asserted.value != s.cloud))])
    case BeatStored(b) =>
      var beat := s.beats[b];
      s.(beats := s.beats[b := beat.(phase := Echoed)],
         cloud := if beat.asserted.Some? && beat.phase.differs then beat.asserted.value else s.cloud)
    case BeatAnswered(b) =>
      var asserted := s.beats[b].asserted;
      s.(beats := s.beats - {b}, files := if asserted.Some? then Answered(s.files, asserted.value, asserted) else s.files)
    case BeatLost(b) => s.(beats := s.beats - {b})
    case Connect(k) => s.(streams := s.streams[k := Stream(None, [])])
    case Disconnect(k) => s.(streams := s.streams - {k})
    case Flush(k) =>
      var stream := s.streams[k];
      if stream.lastAfk == Some(s.cloud) then s
      else s.(streams := s.streams[k := Stream(Some(s.cloud), stream.frames + [s.cloud])])
    case Deliver(k) =>
      var stream := s.streams[k];
      s.(streams := s.streams[k := stream.(frames := stream.frames[1..])],
         files := Pushed(s.files, Some(stream.frames[0])))
  }

  function Exec(s: State, steps: seq<Step>): Option<State> {
    if steps == [] then Some(s)
    else
      match Exec(s, steps[..|steps| - 1])
      case None => None
      case Some(t) => if Enabled(t, steps[|steps| - 1]) then Some(Apply(t, steps[|steps| - 1])) else None
  }

  /** The user's doing: a command starts or writes its value, or the dashboard does. */
  predicate IsToggle(step: Step) {
    step.CliStart? || step.CliWrite? || step.Dashboard?
  }

  predicate ToggleFree(steps: seq<Step>) {
    forall i :: 0 <= i < |steps| ==> !IsToggle(steps[i])
  }

  // ------------------------------------------------------------ when a pending toggle is safe

  /**
   * Could this heartbeat still do harm to a pending value v: store the other value, or
   * confirm v although the cloud no longer has it?
   */
  predicate BeatSafe(beat: Beat, v: bool, cloud: bool) {
    beat.asserted.Some? ==>
      if beat.asserted.value == v
      then beat.phase == Compared(false) || beat.phase == Echoed ==> cloud == v
      else beat.phase != Sent && beat.phase != Compared(true)
  }

  predicate StreamSafe(stream: Stream, v: bool, cloud: bool) {
    v in stream.frames ==> cloud == v
  }

  predicate CliSafe(cli: Cli, v: bool, cloud: bool) {
    (cli.phase.Written? ==> cli.next == v) && (cli.phase.Landed? ==> cloud == v)
  }

  /** Is every message still on its way harmless to v? */
  ghost predicate Safe(s: State, v: bool) {
    && (forall b :: b in s.beats ==> BeatSafe(s.beats[b], v, s.cloud))
    && (forall k :: k in s.streams ==> StreamSafe(s.streams[k], v, s.cloud))
    && (forall c :: c in s.clis ==> CliSafe(s.clis[c], v, s.cloud))
  }

  /** v is pending locally, or it has reached the cloud. */
  predicate Holds(s: State, v: bool) {
    if s.files.dirty then s.files.local == v else s.cloud == v
  }

  lemma SafeStep(s: State, step: Step, v: bool)
    requires Safe(s, v) && Holds(s, v) && Enabled(s, step) && !IsToggle(step)
    ensures Safe(Apply(s, step), v) && Holds(Apply(s, step), v)
    ensures s.cloud == v ==> Apply(s, step).cloud == v
    ensures !s.files.dirty ==> !Apply(s, step).files.dirty
  {
  }

  lemma {:induction false} SafeRuns(s: State, steps: seq<Step>, v: bool)
    requires Safe(s, v) && Holds(s, v) && ToggleFree(steps) && Exec(s, steps).Some?
    ensures
      var t := Exec(s, steps).value;
      && Safe(t, v) && Holds(t, v)
      && (!s.files.dirty ==> !t.files.dirty && t.cloud == v)
  {
    if steps != [] {
      SafeRuns(s, steps[..|steps| - 1], v);
      SafeStep(Exec(s, steps[..|steps| - 1]).value, steps[|steps| - 1], v);
    }
  }

  // ------------------------------------------------------------ and when it is not

  lemma Then(s: State, steps: seq<Step>, t: State, step: Step)
    requires Exec(s, steps) == Some(t) && Enabled(t, step)
    ensures Exec(s, steps + [step]) == Some(Apply(t, step))
  {
    assert (steps + [step])[..|steps|] == steps;
  }

  lemma ExecNothing(s: State)
    ensures Exec(s, []) == Some(s)
  {
  }

  lemma {:induction false} ExecConcat(s: State, a: seq<Step>, b: seq<Step>)
    requires Exec(s, a).Some?
    ensures Exec(s, a + b) == Exec(Exec(s, a).value, b)
  {
    if b == [] {
      assert a + b == a;
    } else {
      ExecConcat(s, a, b[..|b| - 1]);
      assert (a + b)[..|a + b| - 1] == a + b[..|b| - 1];
    }
  }

  lemma {:induction false} FreshId(used: set<nat>) returns (id: nat)
    ensures forall x :: x in used ==> x < id
  {
    if used == {} {
      id := 0;
    } else {
      var x :| x in used;
      var above := FreshId(used - {x});
      id := if x < above then above else x + 1;
      assert used == used - {x} + {x};
    }
  }

  /** One heartbeat that loses nothing. */
  function WholeBeat(b: nat): seq<Step> {
    [BeatStarts(b)] + [BeatCompared(b)] + [BeatStored(b)] + [BeatAnswered(b)]
  }

  /** It carries a pending value to the cloud and clears the flag. */
  lemma WholeBeatClears(s: State, b: nat) returns (t: State)
    requires b !in s.beats
    ensures Exec(s, WholeBeat(b)) == Some(t)
    ensures !t.files.dirty && t.files.local == s.files.local
    ensures t.cloud == if s.files.dirty then s.files.local else s.cloud
    ensures t.beats == s.beats && t.streams == s.streams && t.clis == s.clis
  {
    hide Exec;
    ExecNothing(s);
    Then(s, [], s, BeatStarts(b));
    var s1 := Apply(s, BeatStarts(b));
    assert [] + [BeatStarts(b)] == [BeatStarts(b)];
    Then(s, [BeatStarts(b)], s1, BeatCompared(b));
    var s2 := Apply(s1, BeatCompared(b));
    Then(s, [BeatStarts(b)] + [BeatCompared(b)], s2, BeatStored(b));
    var s3 := Apply(s2, BeatStored(b));
    Then(s, [BeatStarts(b)] + [BeatCompared(b)] + [BeatStored(b)], s3, BeatAnswered(b));
    t := Apply(s3, BeatAnswered(b));
    assert t.beats == s.beats;
  }

  /** Did a run lose the pending value v: flag cleared, and the cloud without it? */
  ghost predicate Loses(s: State, steps: seq<Step>, v: bool) {
    ToggleFree(steps) && Exec(s, steps).Some? && !Exec(s, steps).value.files.dirty && Exec(s, steps).value.cloud != v
  }

  /** A run that has kept v pending or in the cloud is undone by its last step. */
  lemma LastStepLoses(s: State, before: seq<Step>, t: State, step: Step, v: bool)
    requires Exec(s, before) == Some(t) && ToggleFree(before) && Enabled(t, step) && !IsToggle(step)
    requires !Apply(t, step).files.dirty && Apply(t, step).cloud != v
    ensures Loses(s, before + [step], v)
  {
    Then(s, before, t, step);
  }

  /** A heartbeat that carries the other value, and is still to be stored, can undo v later. */
  lemma OtherBeatLoses(s: State, b: nat, v: bool) returns (steps: seq<Step>)
    requires Holds(s, v) && b in s.beats && s.beats[b].asserted == Some(!v)
    requires s.beats[b].phase == Sent || s.beats[b].phase == Compared(true)
    ensures Loses(s, steps, v)
  {
    hide Exec;
    ExecNothing(s);
    var unused := FreshId(s.beats.Keys);
    var t := WholeBeatClears(s, unused);
    var before := WholeBeat(unused);
    if s.beats[b].phase == Sent {
      Then(s, before, t, BeatCompared(b));
      t := t.(beats := t.beats[b := Beat(Some(!v), Compared(true))]);
      before := before + [BeatCompared(b)];
    }
    LastStepLoses(s, before, t, BeatStored(b), v);
    steps := before + [BeatStored(b)];
  }

  /** A heartbeat about to confirm v for a cloud that has lost it. */
  lemma StaleEchoLoses(s: State, b: nat) returns (steps: seq<Step>)
    requires s.files.dirty && b in s.beats && s.beats[b].asserted == Some(s.files.local) && s.cloud != s.files.local
    requires s.beats[b].phase == Compared(false) || s.beats[b].phase == Echoed
    ensures Loses(s, steps, s.files.local)
  {
    hide Exec;
    ExecNothing(s);
    if s.beats[b].phase.Echoed? {
      LastStepLoses(s, [], s, BeatAnswered(b), s.files.local);
      steps := [] + [BeatAnswered(b)];
    } else {
      Then(s, [], s, BeatStored(b));
      var t := s.(beats := s.beats[b := Beat(Some(s.files.local), Echoed)]);
      LastStepLoses(s, [] + [BeatStored(b)], t, BeatAnswered(b), s.files.local);
      steps := [] + [BeatStored(b)] + [BeatAnswered(b)];
    }
  }

  /** A stale push of v confirms it for a cloud that has lost it. */
  lemma {:induction false} StalePushLoses(s: State, k: nat) returns (steps: seq<Step>)
    requires s.files.dirty && k in s.streams && s.files.local in s.streams[k].frames && s.cloud != s.files.local
    ensures Loses(s, steps, s.files.local)
    decreases |s.streams[k].frames|
  {
    var t := Apply(s, Deliver(k));
    assert Exec(s, []) == Some(s);
    Then(s, [], s, Deliver(k));
    assert [] + [Deliver(k)] == [Deliver(k)];
    if s.streams[k].frames[0] == s.files.local {
      steps := [Deliver(k)];
    } else {
      var rest := StalePushLoses(t, k);
      ExecConcat(s, [Deliver(k)], rest);
      steps := [Deliver(k)] + rest;
    }
  }

  /** A command that is about to store the other value, or to clear the flag for a lost one. */
  lemma OtherCommandLoses(s: State, c: nat, v: bool) returns (steps: seq<Step>)
    requires c in s.clis && !CliSafe(s.clis[c], v, s.cloud)
    ensures Loses(s, steps, v)
  {
    hide Exec;
    ExecNothing(s);
    if s.clis[c].phase.Landed? {
      LastStepLoses(s, [], s, PostConfirmed(c), v);
      steps := [] + [PostConfirmed(c)];
    } else {
      Then(s, [], s, PostLands(c));
      var t := s.(clis := s.clis[c := s.clis[c].(phase := Landed)], cloud := s.clis[c].next);
      LastStepLoses(s, [] + [PostLands(c)], t, PostConfirmed(c), v);
      steps := [] + [PostLands(c)] + [PostConfirmed(c)];
    }
  }

  lemma UnsafeLoses(s: State, v: bool) returns (steps: seq<Step>)
    requires Holds(s, v) && !Safe(s, v)
    ensures Loses(s, steps, v)
  {
    if b :| b in s.beats && !BeatSafe(s.beats[b], v, s.cloud) {
      if s.beats[b].asserted.value == v { steps := StaleEchoLoses(s, b); } else { steps := OtherBeatLoses(s, b, v); }
    } else if k :| k in s.streams && !StreamSafe(s.streams[k], v, s.cloud) {
      steps := StalePushLoses(s, k);
    } else {
      var c :| c in s.clis && !CliSafe(s.clis[c], v, s.cloud);
      steps := OtherCommandLoses(s, c, v);
    }
  }

  // ------------------------------------------------------------ main results: one toggle

  /**
   * Exactly when a value that is pending, or has reached the cloud, cannot be lost. The
   * flag is never off without the value in the cloud, on any run without another toggle,
   * if and only if no message already under way carries the other value up or a stale
   * confirmation down.
   */
  lemma PendingToggleIsKeptExactly(s: State, v: bool)
    requires Holds(s, v)
    ensures Safe(s, v) <==> forall steps :: !Loses(s, steps, v)
  {
    if Safe(s, v) {
      forall steps ensures !Loses(s, steps, v) {
        if ToggleFree(steps) && Exec(s, steps).Some? { SafeRuns(s, steps, v); }
      }
    } else {
      var steps := UnsafeLoses(s, v);
    }
  }

  /**
   * The moment a command writes its value, whatever happened since it set the flag. The
   * value is kept on every run from there exactly if the flag is still set, or the cloud
   * has the value already, and no message under way can harm it.
   */
  lemma WriteIsKeptExactly(s: State, c: nat)
    requires InPhase(s, c, Marked)
    ensures
      var v := s.clis[c].next;
      (forall steps :: !Loses(Apply(s, CliWrite(c)), steps, v)) <==> (s.files.dirty || s.cloud == v) && Safe(s, v)
  {
    var v, t := s.clis[c].next, Apply(s, CliWrite(c));
    if s.files.dirty || s.cloud == v {
      WriteKeepsSafety(s, c);
      PendingToggleIsKeptExactly(t, v);
    } else {
      assert Exec(t, []) == Some(t);
      assert Loses(t, [], v);
    }
  }

  lemma WriteKeepsSafety(s: State, c: nat)
    requires InPhase(s, c, Marked)
    ensures Safe(Apply(s, CliWrite(c)), s.clis[c].next) <==> Safe(s, s.clis[c].next)
  {
    var v, t := s.clis[c].next, Apply(s, CliWrite(c));
    assert forall x :: x in s.clis ==> x in t.clis && (CliSafe(t.clis[x], v, t.cloud) <==> CliSafe(s.clis[x], v, s.cloud));
  }

  /** Nothing since the flag was set that could confirm the old value or carry it up. */
  ghost predicate Untouched(s: State, t: State, c: nat, next: bool) {
    && t.files == Files(s.files.local, true) && t.cloud == s.cloud && t.beats == map[]
    && (forall x :: x in t.clis ==> x == c && t.clis[x] == Cli(next, Marked))
    && (forall k, i :: k in t.streams && 0 <= i < |t.streams[k].frames| ==> t.streams[k].frames[i] == t.cloud)
  }

  predicate QuietSteps(steps: seq<Step>) {
    ToggleFree(steps) && forall i :: 0 <= i < |steps| ==> !steps[i].BeatStarts? && !steps[i].Deliver?
  }

  lemma {:induction false} UntouchedRuns(s: State, t: State, c: nat, next: bool, steps: seq<Step>)
    requires Untouched(s, t, c, next) && QuietSteps(steps) && Exec(t, steps).Some?
    ensures Untouched(s, Exec(t, steps).value, c, next)
  {
    if steps != [] {
      UntouchedRuns(s, t, c, next, steps[..|steps| - 1]);
      UntouchedStep(s, Exec(t, steps[..|steps| - 1]).value, c, next, steps[|steps| - 1]);
    }
  }

  lemma UntouchedStep(s: State, t: State, c: nat, next: bool, step: Step)
    requires Untouched(s, t, c, next) && Enabled(t, step) && !IsToggle(step) && !step.BeatStarts? && !step.Deliver?
    ensures Untouched(s, Apply(t, step), c, next)
  {
  }

  function AfterMark(s: State, c: nat, next: bool): State {
    s.(clis := s.clis[c := Cli(next, Marked)], files := s.files.(dirty := true))
  }

  /**
   * One toggle command, begun with nothing under way and dead or not after any of its
   * steps. If it changes nothing, or if between its flag and its value no heartbeat
   * starts and no push arrives, then from its write on an unset flag means its value has
   * reached the cloud, whatever else happens.
   */
  lemma SingleToggleLands(s: State, c: nat, next: bool, between: seq<Step>, after: seq<Step>)
    requires Quiet(s) && ToggleFree(between) && ToggleFree(after) && (next == s.files.local || QuietSteps(between))
    ensures
      var marked := Exec(AfterMark(s, c, next), between);
      marked.Some? && InPhase(marked.value, c, Marked) && marked.value.clis[c].next == next ==>
        var t := Exec(Apply(marked.value, CliWrite(c)), after);
        t.Some? ==> if t.value.files.dirty then t.value.files.local == next else t.value.cloud == next
  {
    var s1 := AfterMark(s, c, next);
    if Exec(s1, between).Some? {
      var t1 := Exec(s1, between).value;
      if InPhase(t1, c, Marked) && t1.clis[c].next == next && Exec(Apply(t1, CliWrite(c)), after).Some? {
        if next == s.files.local { SafeRuns(s1, between, next); } else { UntouchedRuns(s, s1, c, next, between); }
        assert Safe(t1, next);
        WriteKeepsSafety(t1, c);
        SafeRuns(Apply(t1, CliWrite(c)), after, next);
      }
    }
  }

  /** Before its write, a command that dies leaves the old value pending or in the cloud. */
  lemma MarkedCommandKeepsOldValue(s: State, c: nat, next: bool, between: seq<Step>)
    requires Quiet(s) && ToggleFree(between)
    ensures
      var t := Exec(AfterMark(s, c, next), between);
      t.Some? ==> if t.value.files.dirty then t.value.files.local == s.files.local else t.value.cloud == s.files.local
  {
    if Exec(AfterMark(s, c, next), between).Some? { SafeRuns(AfterMark(s, c, next), between, s.files.local); }
  }

  function Starts(ids: seq<nat>): seq<Step> {
    if ids == [] then [] else Starts(ids[..|ids| - 1]) + [BeatStarts(ids[|ids| - 1])]
  }

  lemma {:induction false} StartsRun(s: State, ids: seq<nat>)
    requires s.files.dirty && s.beats == map[] && Exec(s, Starts(ids)).Some?
    ensures
      var t := Exec(s, Starts(ids)).value;
      && t == s.(beats := t.beats)
      && (forall b :: b in t.beats <==> b in ids)
      && (forall b :: b in t.beats ==> t.beats[b] == Beat(Some(s.files.local), Sent))
  {
    if ids != [] {
      var n := |ids| - 1;
      assert Starts(ids)[..|Starts(ids)| - 1] == Starts(ids[..n]);
      assert ids == ids[..n] + [ids[n]];
      StartsRun(s, ids[..n]);
    }
  }

  /**
   * The gap between flag and value is real. Of a command begun with nothing under way,
   * with some heartbeats starting in between, the value is kept on every run exactly if
   * there were none, or if it was the old value anyway.
   */
  lemma BeatsBetweenFlagAndValueExactly(s: State, c: nat, next: bool, ids: seq<nat>)
    requires Quiet(s) && Exec(AfterMark(s, c, next), Starts(ids)).Some?
    ensures
      var t := Exec(AfterMark(s, c, next), Starts(ids)).value;
      && InPhase(t, c, Marked)
      && ((forall steps :: !Loses(Apply(t, CliWrite(c)), steps, next)) <==> ids == [] || next == s.files.local)
  {
    StartsRun(AfterMark(s, c, next), ids);
    var t := Exec(AfterMark(s, c, next), Starts(ids)).value;
    WriteIsKeptExactly(t, c);
    if ids != [] && next != s.files.local {
      assert ids[0] in t.beats && !BeatSafe(t.beats[ids[0]], next, t.cloud);
    } else {
      assert forall b :: b in t.beats ==> BeatSafe(t.beats[b], next, t.cloud);
    }
  }

  /** Such a run: the heartbeat starts between flag and value and is stored after the command's POST. */
  function ToGap(): seq<Step> {
    [] + [CliStart(0, true)] + [BeatStarts(0)] + [CliWrite(0)]
  }

  function FromGap(): seq<Step> {
    [] + [PostLands(0)] + [BeatCompared(0)] + [BeatStored(0)] + [PostConfirmed(0)]
  }

  lemma ToGapRun()
    ensures Exec(State(Files(false, false), false, map[], map[], map[]), ToGap()) ==
            Some(State(Files(true, true), false, map[], map[0 := Beat(Some(false), Sent)], map[0 := Cli(true, Written)]))
  {
    hide Exec;
    var s := State(Files(false, false), false, map[], map[], map[]);
    var marked := State(Files(false, true), false, map[], map[], map[0 := Cli(true, Marked)]);
    var sent := State(Files(false, true), false, map[], map[0 := Beat(Some(false), Sent)], map[0 := Cli(true, Marked)]);
    ExecNothing(s);
    Then(s, [], s, CliStart(0, true));
    Then(s, [] + [CliStart(0, true)], marked, BeatStarts(0));
    Then(s, [] + [CliStart(0, true)] + [BeatStarts(0)], sent, CliWrite(0));
    assert sent.clis[0 := Cli(true, Written)] == map[0 := Cli(true, Written)];
  }

  lemma FromGapRun(s: State)
    requires s == State(Files(true, true), false, map[], map[0 := Beat(Some(false), Sent)], map[0 := Cli(true, Written)])
    ensures Exec(s, FromGap()) ==
            Some(State(Files(true, false), false, map[], map[0 := Beat(Some(false), Echoed)], map[]))
  {
    hide Exec;
    ExecNothing(s);
    var landed := State(Files(true, true), true, map[], s.beats, map[0 := Cli(true, Landed)]);
    var compared := State(Files(true, true), true, map[], map[0 := Beat(Some(false), Compared(true))], landed.clis);
    var stored := State(Files(true, true), false, map[], map[0 := Beat(Some(false), Echoed)], landed.clis);
    assert s.clis[0 := Cli(true, Landed)] == landed.clis;
    assert landed.beats[0 := Beat(Some(false), Compared(true))] == compared.beats;
    assert compared.beats[0 := Beat(Some(false), Echoed)] == stored.beats;
    Then(s, [], s, PostLands(0));
    Then(s, [] + [PostLands(0)], landed, BeatCompared(0));
    Then(s, [] + [PostLands(0)] + [BeatCompared(0)], compared, BeatStored(0));
    Then(s, [] + [PostLands(0)] + [BeatCompared(0)] + [BeatStored(0)], stored, PostConfirmed(0));
    assert stored.clis - {0} == map[];
  }

  /** It ends with the machine on, the cloud off, and no flag. */
  lemma BeatBetweenFlagAndValueLoses()
    ensures Exec(State(Files(false, false), false, map[], map[], map[]), ToGap() + FromGap()) ==
            Some(State(Files(true, false), false, map[], map[0 := Beat(Some(false), Echoed)], map[]))
  {
    hide Exec;
    ToGapRun();
    var s := State(Files(true, true), false, map[], map[0 := Beat(Some(false), Sent)], map[0 := Cli(true, Written)]);
    FromGapRun(s);
    ExecConcat(State(Files(false, false), false, map[], map[], map[]), ToGap(), FromGap());
  }

  // ------------------------------------------------------------ main results: recovery

  /** Nothing is under way: no command, no heartbeat, no frame. */
  ghost predicate Quiet(s: State) {
    s.clis == map[] && s.beats == map[] && forall k :: k in s.streams ==> s.streams[k].frames == []
  }

  /** The state once a command has set the flag and written its value. */
  function AfterWrite(s: State, c: nat, next: bool): State {
    s.(files := Files(next, true), clis := s.clis[c := Cli(next, Written)])
  }

  ghost predicate NoStaleFrames(s: State, v: bool) {
    forall k, i :: k in s.streams && 0 <= i < |s.streams[k].frames| ==> s.streams[k].frames[i] == v
  }

  /** A stream opens, pushes, and the push arrives. */
  function FreshConnect(k: nat): seq<Step> {
    [Connect(k)] + [Flush(k)] + [Deliver(k)]
  }

  lemma FreshConnectRuns(s: State, k: nat) returns (t: State)
    requires !s.files.dirty
    ensures Exec(s, FreshConnect(k)) == Some(t)
    ensures t == s.(streams := s.streams[k := Stream(Some(s.cloud), [])], files := Files(s.cloud, false))
  {
    hide Exec;
    ExecNothing(s);
    Then(s, [], s, Connect(k));
    assert [] + [Connect(k)] == [Connect(k)];
    var s1 := Apply(s, Connect(k));
    Then(s, [Connect(k)], s1, Flush(k));
    var s2 := Apply(s1, Flush(k));
    var none: seq<bool> := [];
    assert none + [s.cloud] == [s.cloud] && [s.cloud][1..] == none;
    Then(s, [Connect(k)] + [Flush(k)], s2, Deliver(k));
    t := Apply(s2, Deliver(k));
    assert t.streams == s.streams[k := Stream(Some(s.cloud), [])];
  }

  /**
   * Recovery, from any state whatever: one heartbeat let through and one fresh stream
   * leave the flag off and both sides on the value that was pending locally, or on the
   * cloud's if none was.
   */
  lemma RecoversFromAnyState(s: State, b: nat, k: nat)
    requires b !in s.beats
    ensures
      var v := if s.files.dirty then s.files.local else s.cloud;
      var t := Exec(s, WholeBeat(b) + FreshConnect(k));
      t.Some? && t.value.files == Files(v, false) && t.value.cloud == v
  {
    hide Exec;
    var u := WholeBeatClears(s, b);
    var t := FreshConnectRuns(u, k);
    ExecConcat(s, WholeBeat(b), FreshConnect(k));
  }

  /** While v is pending, the heartbeat under this id asserts v. */
  predicate AssertsPending(s: State, b: nat, v: bool) {
    s.files.dirty && b in s.beats ==> s.beats[b].asserted == Some(v)
  }

  lemma {:induction false} AssertsPendingRuns(s: State, steps: seq<Step>, b: nat, v: bool)
    requires Safe(s, v) && Holds(s, v) && AssertsPending(s, b, v) && ToggleFree(steps) && Exec(s, steps).Some?
    ensures AssertsPending(Exec(s, steps).value, b, v)
  {
    if steps != [] {
      var before := steps[..|steps| - 1];
      AssertsPendingRuns(s, before, b, v);
      SafeRuns(s, before, v);
      AssertsPendingStep(Exec(s, before).value, steps[|steps| - 1], b, v);
    }
  }

  lemma AssertsPendingStep(s: State, step: Step, b: nat, v: bool)
    requires Holds(s, v) && AssertsPending(s, b, v) && Enabled(s, step) && !IsToggle(step)
    ensures AssertsPending(Apply(s, step), b, v)
  {
  }

  lemma ExecSplit(s: State, a: seq<Step>, b: seq<Step>)
    requires Exec(s, a + b).Some?
    ensures Exec(s, a).Some? && Exec(s, a + b) == Exec(Exec(s, a).value, b)
    decreases |b|
  {
    if b == [] {
      assert a + b == a;
    } else {
      assert (a + b)[..|a + b| - 1] == a + b[..|b| - 1];
      ExecSplit(s, a, b[..|b| - 1]);
    }
  }

  /** From a safe state, a heartbeat that is answered leaves the flag off, whatever else happens meanwhile. */
  lemma AnsweredBeatClears(s: State, b: nat, during: seq<Step>, v: bool)
    requires Safe(s, v) && Holds(s, v) && ToggleFree(during)
    requires Exec(s, [BeatStarts(b)] + during + [BeatAnswered(b)]).Some?
    ensures
      var t := Exec(s, [BeatStarts(b)] + during + [BeatAnswered(b)]).value;
      Safe(t, v) && !t.files.dirty && t.cloud == v
  {
    var start, last := [BeatStarts(b)], [BeatAnswered(b)];
    ExecSplit(s, start + during, last);
    ExecSplit(s, start, during);
    assert start[..0] == [] && last[..0] == [];
    var s1 := Apply(s, BeatStarts(b));
    SafeStep(s, BeatStarts(b), v);
    var t1 := Exec(s1, during).value;
    SafeRuns(s1, during, v);
    AssertsPendingRuns(s1, during, b, v);
    SafeStep(t1, BeatAnswered(b), v);
  }

  /** The flag is off, the cloud has v, and every frame under way says so. */
  ghost predicate Settled(s: State, v: bool) {
    Safe(s, v) && !s.files.dirty && s.cloud == v && NoStaleFrames(s, v)
  }

  lemma SettledStep(s: State, step: Step, v: bool)
    requires Settled(s, v) && Enabled(s, step) && !IsToggle(step)
    ensures Settled(Apply(s, step), v)
    ensures s.files.local == v || step.Deliver? ==> Apply(s, step).files.local == v
  {
    SafeStep(s, step, v);
  }

  lemma {:induction false} SettledRuns(s: State, steps: seq<Step>, v: bool)
    requires Settled(s, v) && ToggleFree(steps) && Exec(s, steps).Some?
    ensures Settled(Exec(s, steps).value, v)
    ensures (exists i :: 0 <= i < |steps| && steps[i].Deliver?) ==> Exec(s, steps).value.files.local == v
    ensures s.files.local == v ==> Exec(s, steps).value.files.local == v
  {
    if steps != [] {
      SettledRuns(s, steps[..|steps| - 1], v);
      SettledStep(Exec(s, steps[..|steps| - 1]).value, steps[|steps| - 1], v);
    }
  }

  /** One heartbeat from start to answer, anything before, meanwhile and after. */
  function BeatAmong(before: seq<Step>, b: nat, during: seq<Step>, settling: seq<Step>): seq<Step> {
    before + ([BeatStarts(b)] + during + [BeatAnswered(b)]) + settling
  }

  /**
   * Recovery for good, among any other activity but toggles. From a state in which
   * nothing under way can harm v, a heartbeat is answered; once no stale frame is left,
   * a push arrives on some stream, as it does on a fresh one. From then on the flag is
   * off and both sides have v, whatever is lost, delayed or interleaved.
   */
  lemma Recovery(s: State, v: bool, before: seq<Step>, b: nat, during: seq<Step>, settling: seq<Step>, after: seq<Step>, i: nat)
    requires Safe(s, v) && Holds(s, v)
    requires ToggleFree(before) && ToggleFree(during) && ToggleFree(settling) && ToggleFree(after)
    requires Exec(s, BeatAmong(before, b, during, settling)).Some?
    requires NoStaleFrames(Exec(s, BeatAmong(before, b, during, settling)).value, v)
    requires Exec(s, BeatAmong(before, b, during, settling) + after).Some?
    requires i < |after| && after[i].Deliver?
    ensures
      var t := Exec(s, BeatAmong(before, b, during, settling) + after).value;
      !t.files.dirty && t.files.local == v && t.cloud == v
  {
    var beat := [BeatStarts(b)] + during + [BeatAnswered(b)];
    ExecSplit(s, before + beat, settling);
    ExecSplit(s, before, beat);
    SafeRuns(s, before, v);
    AnsweredBeatClears(Exec(s, before).value, b, during, v);
    SafeRuns(Exec(s, before + beat).value, settling, v);
    ExecSplit(s, BeatAmong(before, b, during, settling), after);
    SettledRuns(Exec(s, BeatAmong(before, b, during, settling)).value, after, v);
  }

  // ------------------------------------------------------------ what a flush brings to the device

  function Deliveries(k: nat, n: nat): seq<Step> {
    if n == 0 then [] else [Deliver(k)] + Deliveries(k, n - 1)
  }

  /** A flush pushes the cloud's value behind the frames under way, unless that was pushed last. */
  lemma FlushPushesTheCloud(s: State, k: nat)
    requires k in s.streams
    ensures
      var t := Apply(s, Flush(k));
      && t.files == s.files && t.cloud == s.cloud && t.streams.Keys == s.streams.Keys
      && (forall other :: other in s.streams && other != k ==> t.streams[other] == s.streams[other])
      && t.streams[k].lastAfk == Some(s.cloud)
      && t.streams[k].frames == s.streams[k].frames + if s.streams[k].lastAfk == Some(s.cloud) then [] else [s.cloud]
  {
  }

  /** Delivering all of a stream's frames settles the device on the last one, or leaves another value pending. */
  lemma {:induction false} DeliveriesAdoptTheLast(s: State, k: nat)
    requires k in s.streams && s.streams[k].frames != []
    ensures
      var frames, t := s.streams[k].frames, Exec(s, Deliveries(k, |s.streams[k].frames|));
      && t.Some? && t.value.cloud == s.cloud && k in t.value.streams && t.value.streams[k].frames == []
      && (if t.value.files.dirty then t.value.files == s.files && s.files.local !in frames
          else t.value.files.local == frames[|frames| - 1])
    decreases |s.streams[k].frames|
  {
    var frames, t := s.streams[k].frames, Apply(s, Deliver(k));
    assert Exec(s, [Deliver(k)]) == Some(t) by { assert [Deliver(k)][..0] == []; }
    ExecConcat(s, [Deliver(k)], Deliveries(k, |frames| - 1));
    if |frames| > 1 {
      DeliveriesAdoptTheLast(t, k);
    } else {
      assert frames == [frames[0]] && Exec(t, []) == Some(t);
    }
  }

  /**
   * Down the stream: once a change of the cloud's value is flushed and the frames have
   * arrived, the device has that value, or another one of its own is still pending.
   */
  lemma {:induction false} FlushedValueArrives(s: State, k: nat)
    requires k in s.streams && s.streams[k].lastAfk != Some(s.cloud)
    ensures
      var t := Exec(s, [Flush(k)] + Deliveries(k, |s.streams[k].frames| + 1));
      && t.Some? && t.value.cloud == s.cloud
      && (if t.value.files.dirty then t.value.files == s.files && s.files.local != s.cloud
          else t.value.files.local == s.cloud)
  {
    var u := Apply(s, Flush(k));
    assert Exec(s, [Flush(k)]) == Some(u) by { assert [Flush(k)][..0] == []; }
    ExecConcat(s, [Flush(k)], Deliveries(k, |s.streams[k].frames| + 1));
    FlushPushesTheCloud(s, k);
    assert u.streams[k].frames[|s.streams[k].frames|] == s.cloud;
    DeliveriesAdoptTheLast(u, k);
  }

  // ------------------------------------------------------------ what the code does not promise

  /** Machine and cloud disagree, and nothing that is open will ever say so. */
  ghost predicate Apart(s: State) {
    && !s.files.dirty && s.files.local != s.cloud && s.clis == map[]
    && (forall b :: b in s.beats ==> s.beats[b].asserted.None?)
    && (forall k :: k in s.streams ==> s.streams[k] == Stream(Some(s.cloud), []))
  }

  lemma ApartStep(s: State, step: Step)
    requires Apart(s) && Enabled(s, step) && !IsToggle(step) && !step.Connect?
    ensures Apart(Apply(s, step)) && Apply(s, step).files == s.files && Apply(s, step).cloud == s.cloud
  {
  }

  /** Plain convergence is too strong: once apart, only a toggle or a reconnect repairs it. */
  lemma {:induction false} OnlyReconnectRepairs(s: State, steps: seq<Step>)
    requires Apart(s) && ToggleFree(steps) && Exec(s, steps).Some?
    requires forall i :: 0 <= i < |steps| ==> !steps[i].Connect?
    ensures
      var t := Exec(s, steps).value;
      Apart(t) && t.files == s.files && t.cloud == s.cloud
  {
    if steps != [] {
      OnlyReconnectRepairs(s, steps[..|steps| - 1]);
      ApartStep(Exec(s, steps[..|steps| - 1]).value, steps[|steps| - 1]);
    }
  }

  /** A toggle command up to its POST. */
  lemma CommandWrites(s: State, c: nat, next: bool) returns (steps: seq<Step>)
    requires c !in s.clis
    ensures Exec(s, steps) == Some(AfterWrite(s, c, next))
  {
    hide Exec;
    ExecNothing(s);
    var s1 := Apply(s, CliStart(c, next));
    Then(s, [], s, CliStart(c, next));
    Then(s, [] + [CliStart(c, next)], s1, CliWrite(c));
    steps := [] + [CliStart(c, next)] + [CliWrite(c)];
    assert Apply(s1, CliWrite(c)).clis == s.clis[c := Cli(next, Written)];
  }

  lemma CommandDies(s: State, c: nat, next: bool) returns (steps: seq<Step>)
    requires c !in s.clis
    ensures Exec(s, steps) == Some(s.(files := Files(next, true)))
  {
    hide Exec;
    var write := CommandWrites(s, c, next);
    var s1 := AfterWrite(s, c, next);
    Then(s, write, s1, CliEnds(c));
    steps := write + [CliEnds(c)];
    assert s1.clis - {c} == s.clis;
  }

  lemma CommandConfirmed(s: State, c: nat, next: bool) returns (steps: seq<Step>)
    requires c !in s.clis
    ensures Exec(s, steps) == Some(s.(files := Files(next, false), cloud := next))
  {
    hide Exec;
    var write := CommandWrites(s, c, next);
    var s1 := AfterWrite(s, c, next);
    Then(s, write, s1, PostLands(c));
    var s2 := s1.(cloud := next, clis := s1.clis[c := Cli(next, Landed)]);
    Then(s, write + [PostLands(c)], s2, PostConfirmed(c));
    steps := write + [PostLands(c)] + [PostConfirmed(c)];
    assert s2.clis - {c} == s.clis;
  }

  /** A dirty heartbeat up to the point where its answer is on the way. */
  lemma AnswerUnderWay(s: State, b: nat) returns (steps: seq<Step>)
    requires b !in s.beats && s.files.dirty
    ensures Exec(s, steps) == Some(s.(cloud := s.files.local, beats := s.beats[b := Beat(Some(s.files.local), Echoed)]))
  {
    hide Exec;
    ExecNothing(s);
    var s1 := Apply(s, BeatStarts(b));
    var s2 := Apply(s1, BeatCompared(b));
    Then(s, [], s, BeatStarts(b));
    Then(s, [] + [BeatStarts(b)], s1, BeatCompared(b));
    Then(s, [] + [BeatStarts(b)] + [BeatCompared(b)], s2, BeatStored(b));
    steps := [] + [BeatStarts(b)] + [BeatCompared(b)] + [BeatStored(b)];
    assert Apply(s2, BeatStored(b)).beats == s.beats[b := Beat(Some(s.files.local), Echoed)];
  }

  /**
   * And it can get there. On, off, on in quick succession, the first and the last POST
   * lost, the first value's heartbeat answered late: the stale echo matches the local
   * value again and clears the flag for a cloud that says off.
   */
  lemma StaleEchoSetsApart() returns (steps: seq<Step>)
    ensures
      var t := Exec(State(Files(false, false), false, map[0 := Stream(Some(false), [])], map[], map[]), steps);
      t.Some? && Apart(t.value) && t.value.files.local
  {
    hide Exec;
    var s := State(Files(false, false), false, map[0 := Stream(Some(false), [])], map[], map[]);
    var on := CommandDies(s, 0, true);
    var s1 := s.(files := Files(true, true));
    var beat := AnswerUnderWay(s1, 0);
    var s2 := s1.(cloud := true, beats := map[0 := Beat(Some(true), Echoed)]);
    ExecConcat(s, on, beat);
    var off := CommandConfirmed(s2, 0, false);
    var s3 := s2.(files := Files(false, false), cloud := false);
    ExecConcat(s, on + beat, off);
    var onAgain := CommandDies(s3, 0, true);
    var s4 := s3.(files := Files(true, true));
    ExecConcat(s, on + beat + off, onAgain);
    Then(s, on + beat + off + onAgain, s4, BeatAnswered(0));
    steps := on + beat + off + onAgain + [BeatAnswered(0)];
  }
}
