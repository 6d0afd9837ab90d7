/**
 * The per-account turn scheduler as a step system.
 *
 * A step is one stretch of code that runs without an `await`. Inbound texts
 * arrive at any await, so `Enqueue` is enabled in every state. The state has
 * the scheduler's maps (queue, drain slot, in-flight record, promise chain)
 * and a ledger of what has arrived, completed and been aborted.
 */
module Scheduler {
  import opened Common
  import opened AccountLock

  const MAX_COALESCE_INTERRUPTS: nat := 5
  const MAX_ROUNDS: nat := 8

  /** An inbound text; `tapBack` says it carries an explicit binding. */
  datatype Message = Message(id: nat, tapBack: bool)

  /** The record an inbound text consults: abort signal, commit latch, and eligibility. */
  datatype Inflight = Inflight(aborted: bool, committed: bool, interruptible: bool)

  datatype ToolCall = ToolCall(messagesUser: bool)

  /** Where a user turn is suspended. */
  datatype Stage =
    | Loading
    | AwaitingModel(round: nat)
    | RunningTools(round: nat, calls: seq<ToolCall>)
    | SendingProse
    | Recording
    | Clarifying
    | Apologising
    | Finished(aborted: bool)

  /** A user turn, with a count of the tools it ran and the texts it sent. */
  datatype Turn = Turn(batch: seq<Message>, stage: Stage, sawMessageUser: bool, tools: nat, texts: nat)

  datatype Drain = Idle | Scheduled | AtHead | InTurn(turn: Turn)

  /** An aborted attempt, as the positions [start, end) of its batch in the arrival order. */
  datatype Attempt = Attempt(start: nat, end: nat)

  datatype State = State(
    queue: seq<Message>,
    drainActive: bool,
    inflight: Option<Inflight>,
    interrupts: nat,
    drain: Drain,
    chain: Chain,
    live: Option<nat>,
    arrived: seq<Message>,
    completed: seq<seq<Message>>,
    attempts: seq<Attempt>,
    owed: seq<Message>)

  const INIT: State := State([], false, None, 0, Idle, Chain([], None), None, [], [], [], [])

  predicate ShouldInterrupt(inflight: Option<Inflight>, incoming: Message) {
    && inflight.Some?
    && inflight.value.interruptible
    && !inflight.value.committed
    && !incoming.tapBack
  }

  // ------------------------------------------------------------ batches

  ghost predicate AllFree(ms: seq<Message>) {
    forall i :: 0 <= i < |ms| ==> !ms[i].tapBack
  }

  /** A tap-back runs alone; everything else is free text. */
  ghost predicate WellFormedBatch(batch: seq<Message>) {
    && batch != []
    && (AllFree(batch) || |batch| == 1)
  }

  /** How many messages the next batch takes off the queue. */
  function BatchLength(queue: seq<Message>): (n: nat)
    ensures n <= |queue|
  {
    if queue == [] then 0 else if queue[0].tapBack then 1 else FreeRun(queue)
  }

  function FreeRun(queue: seq<Message>): (n: nat)
    ensures n <= |queue|
  {
    if queue == [] || queue[0].tapBack then 0 else 1 + FreeRun(queue[1..])
  }

  lemma {:induction false} FreeRunIsLongest(queue: seq<Message>)
    ensures AllFree(queue[..FreeRun(queue)])
    ensures FreeRun(queue) < |queue| ==> queue[FreeRun(queue)].tapBack
  {
    if queue != [] && !queue[0].tapBack {
      FreeRunIsLongest(queue[1..]);
      assert queue[..FreeRun(queue)] == [queue[0]] + queue[1..][..FreeRun(queue[1..])];
    }
  }

  /**
   * The batch taken is never empty, never mixes a tap-back with anything else,
   * and never stops short: a free-text batch ends only at a tap-back or at the
   * end of the queue.
   */
  lemma BatchShape(queue: seq<Message>)
    requires queue != []
    ensures WellFormedBatch(queue[..BatchLength(queue)])
    ensures queue[0].tapBack ==> BatchLength(queue) == 1
    ensures !queue[0].tapBack && BatchLength(queue) < |queue| ==> queue[BatchLength(queue)].tapBack
  {
    if queue[0].tapBack {
      assert queue[..1] == [queue[0]];
    } else {
      FreeRunIsLongest(queue);
      assert FreeRun(queue) >= 1;
    }
  }

  /** A free-text prefix of the queue is wholly inside the next batch. */
  lemma FreePrefixIsTaken(prefix: seq<Message>, queue: seq<Message>)
    requires prefix <= queue && AllFree(prefix)
    ensures prefix != [] ==> prefix <= queue[..BatchLength(queue)]
  {
    if prefix != [] {
      BatchShape(queue);
      assert prefix[0] == queue[0];
      var n := BatchLength(queue);
      assert forall i :: 0 <= i < |prefix| ==> !queue[i].tapBack;
    }
  }

  // ------------------------------------------------------------ steps

  datatype Step =
    | Enqueue(message: Message)
    | CallOther                     // an agent-event or relay turn calls the lock
    | StartJob(job: nat)
    | SettleJob(job: nat)
    | CollectJob(job: nat)
    | Head                          // the top of the drain loop
    | Loaded(ok: bool)
    | ModelFails
    | ModelReplies(calls: seq<ToolCall>, prose: bool)
    | ToolDone
    | ProseSent(ok: bool)
    | Recorded(ok: bool)
    | ClarifySent
    | TurnThrows                    // outside the turn's own try block, or from its catch branch
    | ApologySent
    | Finish                        // the drain resumes after the turn

  /** A step by which the turn itself moves on. */
  predicate IsTurnStep(step: Step) {
    || step.Loaded? || step.ModelFails? || step.ModelReplies? || step.ToolDone? || step.ProseSent?
    || step.Recorded? || step.ClarifySent? || step.TurnThrows? || step.ApologySent?
  }

  predicate TurnAt(s: State, stage: Stage -> bool) {
    s.drain.InTurn? && s.inflight.Some? && stage(s.drain.turn.stage)
  }

  predicate Enabled(s: State, step: Step) {
    match step
    case Enqueue(_) => true
    case CallOther => true
    case StartJob(k) => CanStart(s.chain, k)
    case SettleJob(k) => k < |s.chain.jobs| && s.chain.jobs[k].phase.Running? && s.live != Some(k)
    case CollectJob(k) => k < |s.chain.jobs| && s.chain.jobs[k].phase.Settled?
    case Head => s.drain.AtHead?
    case Loaded(_) => TurnAt(s, (g: Stage) => g.Loading?)
    case ModelFails => TurnAt(s, (g: Stage) => g.AwaitingModel?)
    case ModelReplies(_, _) => TurnAt(s, (g: Stage) => g.AwaitingModel?)
    case ToolDone => TurnAt(s, (g: Stage) => g.RunningTools? && g.calls != [])
    case ProseSent(_) => TurnAt(s, (g: Stage) => g.SendingProse?)
    case Recorded(_) => TurnAt(s, (g: Stage) => g.Recording?)
    case ClarifySent => TurnAt(s, (g: Stage) => g.Clarifying?)
    case TurnThrows => TurnAt(s, (g: Stage) => g.Loading? || g.Clarifying?)
    case ApologySent => TurnAt(s, (g: Stage) => g.Apologising?)
    case Finish => TurnAt(s, (g: Stage) => g.Finished?)
  }

  function Apply(s: State, step: Step): State
    requires Enabled(s, step)
  {
    match step
    case Enqueue(m) => ApplyEnqueue(s, m)
    case CallOther => s.(chain := Call(s.chain, OtherJob))
    case StartJob(k) => ApplyStart(s, k)
    case SettleJob(k) => s.(chain := Settle(s.chain, k))
    case CollectJob(k) => s.(chain := Collect(s.chain, k))
    case Head => ApplyHead(s)
    case Finish => ApplyFinish(s)
    case _ =>
      var (turn, committed) := TurnStep(s.drain.turn, s.inflight.value, step);
      s.(drain := InTurn(turn), inflight := Some(s.inflight.value.(committed := committed)))
  }

  /** Push the text; then interrupt the in-flight turn, or start a drain if none is alive. */
  function ApplyEnqueue(s: State, m: Message): State {
    var t := s.(queue := s.queue + [m], arrived := s.arrived + [m]);
    if s.drainActive then
      if ShouldInterrupt(s.inflight, m)
      then t.(inflight := Some(s.inflight.value.(aborted := true)))
      else t
    else
      t.(drainActive := true, drain := Scheduled, interrupts := 0,
         live := Some(|s.chain.jobs|), chain := Call(s.chain, DrainJob))
  }

  function ApplyStart(s: State, k: nat): State
    requires k < |s.chain.jobs|
  {
    s.(chain := Start(s.chain, k), drain := if s.live == Some(k) then AtHead else s.drain)
  }

  /** Tear the drain down when the queue is empty, else take the next batch and begin its turn. */
  function ApplyHead(s: State): State {
    if s.queue == [] then
      s.(drainActive := false, drain := Idle, live := None)
    else
      var n := BatchLength(s.queue);
      var batch := s.queue[..n];
      var interruptible := n > 0 && !batch[0].tapBack && s.interrupts < MAX_COALESCE_INTERRUPTS;
      s.(queue := s.queue[n..],
         inflight := Some(Inflight(false, false, interruptible)),
         drain := InTurn(Turn(batch, Loading, false, 0, 0)),
         owed := [])
  }

  /** Re-queue an aborted batch ahead of the newer texts; otherwise the batch is done. */
  function ApplyFinish(s: State): State
    requires s.drain.InTurn? && s.drain.turn.stage.Finished?
  {
    var batch := s.drain.turn.batch;
    if s.drain.turn.stage.aborted then
      var start := |Flatten(s.completed)|;
      s.(inflight := None, drain := AtHead, interrupts := s.interrupts + 1, queue := batch + s.queue,
         owed := batch, attempts := s.attempts + [Attempt(start, start + |batch|)])
    else
      s.(inflight := None, drain := AtHead, interrupts := 0, completed := s.completed + [batch])
  }

  /** The top of a model round: round cap, then the interrupt check, then the request. */
  function RoundTop(turn: Turn, aborted: bool, round: nat): Turn {
    if round >= MAX_ROUNDS then turn.(stage := Recording)
    else if aborted then turn.(stage := Finished(true))
    else turn.(stage := AwaitingModel(round))
  }

  /** The catch branch of a user turn: send the clarify text. */
  function Clarify(turn: Turn): Turn {
    turn.(stage := Clarifying, texts := turn.texts + 1)
  }

  /** Begin the next tool call of a round, or move on to the next round. */
  function NextCall(turn: Turn, aborted: bool, round: nat, calls: seq<ToolCall>): Turn {
    if calls == [] then RoundTop(turn, aborted, round + 1)
    else turn.(stage := RunningTools(round, calls), tools := turn.tools + 1,
               sawMessageUser := turn.sawMessageUser || calls[0].messagesUser)
  }

  /** What the turn does when the awaited operation `step` comes back: next stage, commit latch. */
  function TurnStep(turn: Turn, f: Inflight, step: Step): (Turn, bool) {
    match step
    case Loaded(ok) => (if ok then RoundTop(turn, f.aborted, 0) else Clarify(turn), f.committed)
    case ModelFails => (if f.aborted then turn.(stage := Finished(true)) else Clarify(turn), f.committed)
    case ModelReplies(calls, prose) =>
      if !turn.stage.AwaitingModel? then (turn, f.committed)
      else if f.aborted then (turn.(stage := Finished(true)), f.committed)
      else if calls != [] then (NextCall(turn, f.aborted, turn.stage.round, calls), true)
      else if prose && !turn.sawMessageUser then (turn.(stage := SendingProse, texts := turn.texts + 1), true)
      else (turn.(stage := Recording), f.committed)
    case ToolDone =>
      if !turn.stage.RunningTools? || turn.stage.calls == [] then (turn, f.committed)
      else (NextCall(turn, f.aborted, turn.stage.round, turn.stage.calls[1..]), f.committed)
    case ProseSent(ok) => (if ok then turn.(stage := Recording) else Clarify(turn), f.committed)
    case Recorded(ok) => (if ok then turn.(stage := Finished(false)) else Clarify(turn), f.committed)
    case ClarifySent => (turn.(stage := Finished(false)), f.committed)
    case TurnThrows => (turn.(stage := Apologising, texts := turn.texts + 1), f.committed)
    case ApologySent => (turn.(stage := Finished(false)), f.committed)
    case _ => (turn, f.committed)
  }

  // ------------------------------------------------------------ invariants

  function CurrentBatch(s: State): seq<Message> {
    if s.drain.InTurn? then s.drain.turn.batch else []
  }

  /** Arrivals are exactly: what completed, then the batch in flight, then the queue. */
  ghost predicate Ledger(s: State) {
    && s.arrived == Flatten(s.completed) + CurrentBatch(s) + s.queue
    && (s.drain.InTurn? ==> WellFormedBatch(s.drain.turn.batch))
    && (forall i :: 0 <= i < |s.completed| ==> WellFormedBatch(s.completed[i]))
  }

  /** The drain slot is taken exactly while a drain lives, and that drain owns the running job. */
  ghost predicate Slot(s: State) {
    && Ordered(s.chain)
    && (s.drainActive <==> !s.drain.Idle?)
    && (s.queue != [] ==> s.drainActive)
    && (s.inflight.Some? <==> s.drain.InTurn?)
    && (s.live.Some? <==> s.drainActive)
    && (s.live.Some? ==>
          && s.live.value < |s.chain.jobs|
          && s.chain.jobs[s.live.value].kind.DrainJob?
          && (if s.drain.Scheduled? then s.chain.jobs[s.live.value].phase.Waiting?
              else s.chain.jobs[s.live.value].phase.Running?))
    && (forall k :: 0 <= k < |s.chain.jobs| && s.chain.jobs[k].kind.DrainJob? && s.chain.jobs[k].phase.Waiting?
          ==> s.live == Some(k))
  }

  /** What holds of a turn and its in-flight record, whatever the suspension point. */
  ghost predicate TurnOk(turn: Turn, f: Inflight, interrupts: nat) {
    && !(f.aborted && f.committed)
    && (f.aborted ==> f.interruptible)
    && (f.interruptible <==> AllFree(turn.batch) && interrupts < MAX_COALESCE_INTERRUPTS)
    && (!f.committed ==> turn.tools == 0)
    && (!f.committed && turn.texts > 0 ==>
          turn.stage.Clarifying? || turn.stage.Apologising? || turn.stage == Finished(false))
    && (turn.stage.SendingProse? || turn.stage.RunningTools? ==> f.committed)
    && (turn.stage == Finished(true) ==> f.aborted)
    && (turn.stage.Loading? ==> !f.committed)
    && (turn.stage.AwaitingModel? ==> turn.stage.round < MAX_ROUNDS && (f.committed <==> turn.stage.round > 0))
    && (turn.stage.RunningTools? ==> turn.stage.round < MAX_ROUNDS && turn.stage.calls != [])
  }

  ghost predicate TurnInv(s: State) {
    s.drain.InTurn? && s.inflight.Some? ==> TurnOk(s.drain.turn, s.inflight.value, s.interrupts)
  }

  ghost predicate Inv(s: State) {
    Ledger(s) && Slot(s) && TurnInv(s) && Coalescing(s)
  }

  /** In how many aborted attempts the message at arrival position p took part. */
  ghost function Covering(attempts: seq<Attempt>, p: nat): (n: nat)
    ensures n <= |attempts|
  {
    if attempts == [] then 0
    else
      var last := attempts[|attempts| - 1];
      Covering(attempts[..|attempts| - 1], p) + if last.start <= p < last.end then 1 else 0
  }

  /** The end of the batch being re-tried: the aborted batch, or the batch now in flight. */
  ghost function Horizon(s: State): nat {
    |Flatten(s.completed)| + if s.drain.InTurn? then |s.drain.turn.batch| else |s.owed|
  }

  /**
   * The last `interrupts` attempts all begin at the first uncompleted position and
   * end within the batch being re-tried; every earlier attempt is over and done.
   */
  ghost predicate Coalescing(s: State) {
    var done := |Flatten(s.completed)|;
    var stale := |s.attempts| - s.interrupts;
    && s.interrupts <= MAX_COALESCE_INTERRUPTS
    && s.interrupts <= |s.attempts|
    && (forall i :: 0 <= i < stale ==> s.attempts[i].end <= done)
    && (forall i :: stale <= i < |s.attempts| ==> s.attempts[i].start == done && s.attempts[i].end <= Horizon(s))
    && (forall p: nat :: Covering(s.attempts, p) <= MAX_COALESCE_INTERRUPTS)
    && AllFree(s.owed)
    && (s.drain.InTurn? ==> s.owed == [])
    && s.owed <= s.queue
    && (s.drain.Idle? || s.drain.Scheduled? ==> s.interrupts == 0 && s.owed == [])
    && (s.interrupts > 0 && !s.drain.InTurn? ==> s.owed != [])
  }
}
