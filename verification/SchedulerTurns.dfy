/**
 * What an interrupt does, and what becomes of what the model replied: laws over
 * whole runs, stated in the steps that were taken and not in how a turn moves on.
 */
module SchedulerTurns {
  import opened Common
  import opened AccountLock
  import opened Scheduler
  import opened SchedulerSafety

  // ------------------------------------------------------------ raising the signal

  /** The arrivals that interrupt: free text, on a free-text turn that has not committed, below the cap. */
  ghost predicate Interrupts(s: State, m: Message)
    requires s.drain.InTurn? && s.inflight.Some?
  {
    && !m.tapBack && AllFree(s.drain.turn.batch)
    && !s.inflight.value.committed && s.interrupts < MAX_COALESCE_INTERRUPTS
  }

  lemma ArrivalRaisesExactly(s: State, m: Message)
    requires Inv(s) && s.drain.InTurn?
    ensures s.inflight.Some?
    ensures
      var t := Apply(s, Enqueue(m));
      && t.drain == s.drain && t.queue == s.queue + [m]
      && t.inflight == Some(s.inflight.value.(aborted := s.inflight.value.aborted || Interrupts(s, m)))
  {
  }

  /**
   * Over every run, a text arriving during a turn raises the signal exactly if the text
   * and the turn's batch are free text, the turn is uncommitted and the cap is not
   * reached; it changes nothing else about the turn. So a tap-back never does.
   */
  lemma {:induction false} SignalRaisedExactly(steps: seq<Step>, m: Message)
    requires Exec(INIT, steps).Some? && Exec(INIT, steps).value.drain.InTurn?
    ensures
      var s := Exec(INIT, steps).value;
      var t := Apply(s, Enqueue(m));
      && s.inflight.Some?
      && t.drain == s.drain && t.queue == s.queue + [m]
      && t.inflight == Some(s.inflight.value.(aborted := s.inflight.value.aborted || Interrupts(s, m)))
  {
    RunsKeepInv(steps);
    ArrivalRaisesExactly(Exec(INIT, steps).value, m);
  }

  // ------------------------------------------------------------ obeying the signal

  /** A turn that waits for the model with the signal up, or has been cut off by it. */
  ghost predicate CutOff(s: State) {
    && s.drain.InTurn? && s.inflight.Some? && s.inflight.value.aborted
    && (s.drain.turn.stage.AwaitingModel? || s.drain.turn.stage == Finished(true))
  }

  lemma CutOffStays(s: State, step: Step)
    requires Inv(s) && CutOff(s) && Enabled(s, step) && !step.Finish?
    ensures
      var t := Apply(s, step);
      && CutOff(t) && t.drain.turn.batch == s.drain.turn.batch && s.queue <= t.queue
      && (IsTurnStep(step) ==> t.drain.turn.stage == Finished(true))
  {
  }

  /**
   * Over every run, a turn whose signal is up while it waits for the model leaves that
   * wait only as aborted, however the request comes back.
   */
  lemma {:induction false} InterruptedWaitEndsAborted(steps: seq<Step>, step: Step)
    requires Exec(INIT, steps).Some? && Enabled(Exec(INIT, steps).value, step)
    requires
      var s := Exec(INIT, steps).value;
      && s.drain.InTurn? && s.drain.turn.stage.AwaitingModel?
      && s.inflight.Some? && s.inflight.value.aborted
    ensures
      var s, t := Exec(INIT, steps).value, Apply(Exec(INIT, steps).value, step);
      && t.drain.InTurn? && t.drain.turn.batch == s.drain.turn.batch
      && t.drain.turn.stage == if IsTurnStep(step) then Finished(true) else s.drain.turn.stage
  {
    RunsKeepInv(steps);
    CutOffStays(Exec(INIT, steps).value, step);
  }

  /** Over every run, no request to the model begins with the signal up. */
  lemma {:induction false} RequestsBeginUninterrupted(steps: seq<Step>, step: Step)
    requires Exec(INIT, steps).Some? && Enabled(Exec(INIT, steps).value, step)
    ensures
      var s, t := Exec(INIT, steps).value, Apply(Exec(INIT, steps).value, step);
      && (t.drain.InTurn? && t.drain.turn.stage.AwaitingModel? && t.drain != s.drain ==>
            t.inflight.Some? && !t.inflight.value.aborted)
  {
    RunsKeepInv(steps);
    InvKept(Exec(INIT, steps).value, step);
  }

  /** These texts are in the batch that was cut off and the queue behind it, or back at the queue's front. */
  ghost predicate Rejoining(s: State, texts: seq<Message>) {
    if s.drain.InTurn? then CutOff(s) && texts <= s.drain.turn.batch + s.queue
    else s.drain.AtHead? && texts <= s.queue
  }

  lemma RejoiningKept(s: State, step: Step, texts: seq<Message>)
    requires Inv(s) && Rejoining(s, texts) && Enabled(s, step) && !step.Head?
    ensures Rejoining(Apply(s, step), texts)
  {
    if CutOff(s) && !step.Finish? {
      CutOffStays(s, step);
    }
  }

  lemma {:induction false} RejoiningRuns(s: State, steps: seq<Step>, texts: seq<Message>)
    requires Inv(s) && Rejoining(s, texts) && Exec(s, steps).Some?
    requires forall i :: 0 <= i < |steps| ==> !steps[i].Head?
    ensures Inv(Exec(s, steps).value) && Rejoining(Exec(s, steps).value, texts)
  {
    if steps != [] {
      var before := steps[..|steps| - 1];
      RejoiningRuns(s, before, texts);
      InvKept(Exec(s, before).value, steps[|steps| - 1]);
      RejoiningKept(Exec(s, before).value, steps[|steps| - 1], texts);
    }
  }

  /**
   * Coalescing, end to end: a free text that arrives while an uncommitted free-text turn
   * waits for the model, below the cap and with only free text queued, shares the next
   * batch with the whole of that turn's batch and everything queued in between, whatever
   * else happens before the loop comes round.
   */
  lemma {:induction false} FreeTextJoinsTheNextBatch(steps: seq<Step>, m: Message, more: seq<Step>)
    requires Exec(INIT, steps).Some?
    requires
      var s := Exec(INIT, steps).value;
      && s.drain.InTurn? && s.drain.turn.stage.AwaitingModel? && s.inflight.Some?
      && !s.inflight.value.committed && s.interrupts < MAX_COALESCE_INTERRUPTS
      && !m.tapBack && AllFree(s.drain.turn.batch) && AllFree(s.queue)
    requires Exec(Apply(Exec(INIT, steps).value, Enqueue(m)), more).Some?
    requires forall i :: 0 <= i < |more| ==> !more[i].Head?
    ensures
      var s := Exec(INIT, steps).value;
      var t := Exec(Apply(s, Enqueue(m)), more).value;
      Enabled(t, Head) ==>
        && Apply(t, Head).drain.InTurn?
        && s.drain.turn.batch + s.queue + [m] <= Apply(t, Head).drain.turn.batch
  {
    RunsKeepInv(steps);
    var s := Exec(INIT, steps).value;
    var texts := s.drain.turn.batch + s.queue + [m];
    ArrivalRaisesExactly(s, m);
    InvKept(s, Enqueue(m));
    assert texts == s.drain.turn.batch + (s.queue + [m]);
    RejoiningRuns(Apply(s, Enqueue(m)), more, texts);
    var t := Exec(Apply(s, Enqueue(m)), more).value;
    if Enabled(t, Head) { FreePrefixIsTaken(texts, t.queue); }
  }

  // ------------------------------------------------------------ what the model replied

  /**
   * What a turn has heard since its batch was taken: the tool calls asked for and in how
   * many replies, whether the model ended the turn and with prose, and what has failed.
   */
  datatype Heard = Heard(asked: seq<ToolCall>, rounds: nat, ended: Option<bool>, failures: nat)

  const NOTHING: Heard := Heard([], 0, None, 0)

  predicate IsFailure(step: Step) {
    || step.ModelFails? || step.TurnThrows?
    || step == Loaded(false) || step == ProseSent(false) || step == Recorded(false)
  }

  function Hear(heard: Heard, step: Step): Heard {
    match step
    case Head => NOTHING
    case ModelReplies(calls, prose) =>
      if calls == [] then heard.(ended := Some(prose))
      else heard.(asked := heard.asked + calls, rounds := heard.rounds + 1)
    case _ => if IsFailure(step) then heard.(failures := heard.failures + 1) else heard
  }

  function HeardIn(steps: seq<Step>): Heard {
    if steps == [] then NOTHING else Hear(HeardIn(steps[..|steps| - 1]), steps[|steps| - 1])
  }

  ghost predicate AsksToMessage(calls: seq<ToolCall>) {
    exists i :: 0 <= i < |calls| && calls[i].messagesUser
  }

  /** Of the calls of the round that runs, those not begun yet. */
  ghost function Unbegun(stage: Stage): seq<ToolCall> {
    if stage.RunningTools? && stage.calls != [] then stage.calls[1..] else []
  }

  /** One text for prose that no tool has forestalled. */
  ghost function ProseTexts(heard: Heard): nat {
    if heard.ended == Some(true) && !AsksToMessage(heard.asked) then 1 else 0
  }

  /** A turn that was not cut off is where what it heard has brought it. */
  ghost predicate Follows(turn: Turn, heard: Heard) {
    var stage := turn.stage;
    && turn.tools <= |heard.asked| && Unbegun(stage) == heard.asked[turn.tools..]
    && turn.sawMessageUser == AsksToMessage(heard.asked[..turn.tools])
    && turn.texts == heard.failures + ProseTexts(heard)
    && (stage.Loading? ==> heard == NOTHING)
    && (stage.AwaitingModel? ==> heard.rounds == stage.round)
    && (stage.RunningTools? ==> heard.rounds == stage.round + 1 && stage.calls != [])
    && (stage.AwaitingModel? || stage.RunningTools? ==> heard.ended.None? && heard.failures == 0)
    && (stage.SendingProse? ==> ProseTexts(heard) == 1 && heard.failures == 0)
    && (stage.Recording? || stage == Finished(false) ==>
          heard.ended.Some? || heard.rounds == MAX_ROUNDS || heard.failures > 0)
    && (stage.Recording? ==> heard.failures == 0)
    && (stage.Clarifying? || stage.Apologising? ==> heard.failures > 0)
  }

  lemma RepliesFollow(turn: Turn, f: Inflight, calls: seq<ToolCall>, prose: bool, heard: Heard)
    requires Follows(turn, heard) && turn.stage.AwaitingModel? && !f.aborted
    requires turn.stage.round < MAX_ROUNDS
    ensures Follows(TurnStep(turn, f, ModelReplies(calls, prose)).0, Hear(heard, ModelReplies(calls, prose)))
  {
    assert heard.asked[..turn.tools] == heard.asked;
    if calls != [] {
      var asked := heard.asked + calls;
      assert asked[..turn.tools + 1] == heard.asked + [calls[0]];
      OneMoreAsks(heard.asked, calls[0]);
      assert asked[turn.tools + 1..] == calls[1..];
    }
  }

  lemma OneMoreAsks(calls: seq<ToolCall>, call: ToolCall)
    ensures AsksToMessage(calls + [call]) == (AsksToMessage(calls) || call.messagesUser)
  {
    if AsksToMessage(calls) {
      var i :| 0 <= i < |calls| && calls[i].messagesUser;
      assert (calls + [call])[i].messagesUser;
    }
    if call.messagesUser { assert (calls + [call])[|calls|].messagesUser; }
  }

  lemma ToolDoneFollows(turn: Turn, f: Inflight, heard: Heard)
    requires Follows(turn, heard) && turn.stage.RunningTools? && !f.aborted && turn.stage.round < MAX_ROUNDS
    ensures Follows(TurnStep(turn, f, ToolDone).0, heard)
  {
    var rest := turn.stage.calls[1..];
    if rest == [] {
      assert heard.asked[..turn.tools] == heard.asked;
    } else {
      assert rest[0] == heard.asked[turn.tools];
      assert heard.asked[..turn.tools + 1] == heard.asked[..turn.tools] + [rest[0]];
      OneMoreAsks(heard.asked[..turn.tools], rest[0]);
      assert heard.asked[turn.tools + 1..] == rest[1..];
    }
  }

  /** The turn is at a point at which the step can come. */
  ghost predicate Meets(stage: Stage, step: Step) {
    match step
    case Loaded(_) => stage.Loading?
    case ProseSent(_) => stage.SendingProse?
    case Recorded(_) => stage.Recording?
    case ClarifySent => stage.Clarifying?
    case TurnThrows => stage.Loading? || stage.Clarifying?
    case ApologySent => stage.Apologising?
    case _ => stage.AwaitingModel?
  }

  lemma OtherTurnStepsFollow(turn: Turn, f: Inflight, step: Step, heard: Heard)
    requires Follows(turn, heard) && Meets(turn.stage, step)
    requires IsTurnStep(step) && !step.ModelReplies? && !step.ToolDone?
    ensures
      var turn' := TurnStep(turn, f, step).0;
      turn'.stage != Finished(true) ==> Follows(turn', Hear(heard, step))
  {
    assert heard.asked[..|heard.asked|] == heard.asked;
  }

  /** In every state of a run a turn not cut off is where what it heard has brought it. */
  ghost predicate TurnFollows(s: State, heard: Heard) {
    s.drain.InTurn? && s.drain.turn.stage != Finished(true) ==> Follows(s.drain.turn, heard)
  }

  lemma TurnStepFollows(turn: Turn, f: Inflight, interrupts: nat, step: Step, heard: Heard)
    requires TurnOk(turn, f, interrupts) && turn.stage != Finished(true) && Follows(turn, heard)
    requires IsTurnStep(step)
    requires
      if step.ModelReplies? then turn.stage.AwaitingModel?
      else if step.ToolDone? then turn.stage.RunningTools?
      else Meets(turn.stage, step)
    ensures
      var turn' := TurnStep(turn, f, step).0;
      turn'.stage != Finished(true) ==> Follows(turn', Hear(heard, step))
  {
    hide Follows, Hear;
    match step {
      case ModelReplies(calls, prose) => if !f.aborted { RepliesFollow(turn, f, calls, prose, heard); }
      case ToolDone => ToolDoneFollows(turn, f, heard); ToolIsNotHeard(heard);
      case _ => OtherTurnStepsFollow(turn, f, step, heard);
    }
  }

  lemma ToolIsNotHeard(heard: Heard)
    ensures Hear(heard, ToolDone) == heard
  {
  }

  lemma TurnFollowsKept(s: State, step: Step, heard: Heard)
    requires Inv(s) && Enabled(s, step) && TurnFollows(s, heard)
    ensures TurnFollows(Apply(s, step), Hear(heard, step))
  {
    if IsTurnStep(step) {
      hide Follows, Hear, Ledger, Slot, Coalescing;
      TurnStepFollows(s.drain.turn, s.inflight.value, s.interrupts, step, heard);
    } else {
      hide Ledger, Slot, Coalescing;
    }
  }

  lemma {:induction false} RunsFollow(steps: seq<Step>)
    requires Exec(INIT, steps).Some?
    ensures Inv(Exec(INIT, steps).value) && TurnFollows(Exec(INIT, steps).value, HeardIn(steps))
  {
    RunsKeepInv(steps);
    if steps != [] {
      var before := steps[..|steps| - 1];
      RunsFollow(before);
      TurnFollowsKept(Exec(INIT, before).value, steps[|steps| - 1], HeardIn(before));
    }
  }

  /**
   * What a turn that was not cut off has done when it ends, over every run: it ran every
   * tool call the model asked for and no other; it sent one text for each failure and
   * the model's prose unless a tool had messaged the user, and nothing else; and unless
   * something failed or all rounds are used up, the model itself ended the turn.
   */
  lemma {:induction false} FinishedTurnExactly(steps: seq<Step>)
    requires Exec(INIT, steps).Some? && Exec(INIT, steps).value.drain.InTurn?
    requires Exec(INIT, steps).value.drain.turn.stage == Finished(false)
    ensures
      var turn, heard := Exec(INIT, steps).value.drain.turn, HeardIn(steps);
      && turn.tools == |heard.asked|
      && turn.texts == heard.failures + ProseTexts(heard)
      && (heard.ended.Some? || heard.rounds == MAX_ROUNDS || heard.failures > 0)
  {
    RunsFollow(steps);
  }
}
