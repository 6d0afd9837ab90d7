/** What every step of the scheduler keeps, and what holds over whole runs. */
module SchedulerSafety {
  import opened Common
  import opened AccountLock
  import opened Scheduler

  // ------------------------------------------------------------ one step

  lemma HeadLedger(s: State)
    requires Ledger(s) && s.drain.AtHead?
    ensures Ledger(ApplyHead(s))
  {
    if s.queue != [] {
      BatchShape(s.queue);
      var n := BatchLength(s.queue);
      assert s.queue == s.queue[..n] + s.queue[n..];
      assert Flatten(s.completed) + [] + s.queue == Flatten(s.completed) + s.queue[..n] + s.queue[n..];
    }
  }

  lemma FinishLedger(s: State)
    requires Ledger(s) && s.drain.InTurn? && s.drain.turn.stage.Finished?
    ensures Ledger(ApplyFinish(s))
  {
    var batch := s.drain.turn.batch;
    FlattenSnoc(s.completed, batch);
    assert Flatten(s.completed) + [] + (batch + s.queue) == Flatten(s.completed) + batch + s.queue;
    assert Flatten(s.completed) + batch + [] + s.queue == Flatten(s.completed) + batch + s.queue;
  }

  lemma LedgerKept(s: State, step: Step)
    requires Inv(s) && Enabled(s, step)
    ensures Ledger(Apply(s, step))
  {
    match step {
      case Enqueue(m) =>
        assert Flatten(s.completed) + CurrentBatch(s) + s.queue + [m]
            == Flatten(s.completed) + CurrentBatch(s) + (s.queue + [m]);
      case Head => HeadLedger(s);
      case Finish => FinishLedger(s);
      case CallOther =>
      case StartJob(_) =>
      case SettleJob(_) =>
      case CollectJob(_) =>
      case _ =>
        TurnStepKeeps(s.drain.turn, s.inflight.value, s.interrupts, step);
    }
  }

  lemma CallSlotKept(s: State, step: Step)
    requires Slot(s) && (step.Enqueue? || step.CallOther?)
    ensures Slot(Apply(s, step))
  {
    CallKeepsOrder(s.chain, if step.Enqueue? then DrainJob else OtherJob);
  }

  lemma ChainSlotKept(s: State, step: Step)
    requires Slot(s) && Enabled(s, step) && (step.StartJob? || step.SettleJob? || step.CollectJob?)
    ensures Slot(Apply(s, step))
  {
    match step {
      case StartJob(k) => StartIsExclusive(s.chain, k);
      case SettleJob(k) => SettleKeepsOrder(s.chain, k);
      case CollectJob(k) => CollectOnlyLast(s.chain, k);
    }
  }

  lemma LoopSlotKept(s: State, step: Step)
    requires Slot(s) && Enabled(s, step) && (step.Head? || step.Finish?)
    ensures Slot(Apply(s, step))
  {
  }

  lemma TurnSlotKept(s: State, step: Step)
    requires Slot(s) && Enabled(s, step) && IsTurnStep(step)
    ensures Slot(Apply(s, step))
  {
  }

  lemma SlotKept(s: State, step: Step)
    requires Slot(s) && Enabled(s, step)
    ensures Slot(Apply(s, step))
  {
    match step {
      case Enqueue(_) => CallSlotKept(s, step);
      case CallOther => CallSlotKept(s, step);
      case StartJob(_) => ChainSlotKept(s, step);
      case SettleJob(_) => ChainSlotKept(s, step);
      case CollectJob(_) => ChainSlotKept(s, step);
      case Head => LoopSlotKept(s, step);
      case Finish => LoopSlotKept(s, step);
      case _ => TurnSlotKept(s, step);
    }
  }

  lemma TurnStepKeeps(turn: Turn, f: Inflight, interrupts: nat, step: Step)
    requires TurnOk(turn, f, interrupts)
    requires step.Loaded? ==> turn.stage.Loading?
    requires step.ModelFails? || step.ModelReplies? ==> turn.stage.AwaitingModel?
    requires step.TurnThrows? ==> turn.stage.Loading? || turn.stage.Clarifying?
    requires step.ClarifySent? ==> turn.stage.Clarifying?
    requires step.ApologySent? ==> turn.stage.Apologising?
    requires step.ProseSent? ==> turn.stage.SendingProse?
    requires step.Recorded? ==> turn.stage.Recording?
    ensures
      var (turn', committed) := TurnStep(turn, f, step);
      TurnOk(turn', f.(committed := committed), interrupts) && turn'.batch == turn.batch
  {
  }

  lemma TurnKept(s: State, step: Step)
    requires Inv(s) && Enabled(s, step)
    ensures TurnInv(Apply(s, step))
  {
    match step {
      case Head =>
        if s.queue != [] { BatchShape(s.queue); }
      case Enqueue(_) =>
      case CallOther =>
      case StartJob(_) =>
      case SettleJob(_) =>
      case CollectJob(_) =>
      case Finish =>
      case _ =>
        TurnStepKeeps(s.drain.turn, s.inflight.value, s.interrupts, step);
    }
  }

  // ------------------------------------------------------------ coalescing

  lemma {:induction false} CoveringTail(attempts: seq<Attempt>, recent: nat, done: nat, p: nat)
    requires recent <= |attempts| && done <= p
    requires forall i :: 0 <= i < |attempts| - recent ==> attempts[i].end <= done
    ensures Covering(attempts, p) <= recent
  {
    if attempts != [] {
      CoveringTail(attempts[..|attempts| - 1], if recent > 0 then recent - 1 else 0, done, p);
    }
  }

  lemma AbortedFinishKeepsCoalescing(s: State)
    requires Inv(s) && s.drain.InTurn? && s.drain.turn.stage == Finished(true)
    ensures Coalescing(ApplyFinish(s))
  {
    var t := ApplyFinish(s);
    var done := |Flatten(s.completed)|;
    forall p: nat ensures Covering(t.attempts, p) <= MAX_COALESCE_INTERRUPTS {
      assert t.attempts[..|t.attempts| - 1] == s.attempts;
      if p >= done { CoveringTail(s.attempts, s.interrupts, done, p); }
    }
  }

  lemma CompletedFinishKeepsCoalescing(s: State)
    requires Inv(s) && s.drain.InTurn? && s.drain.turn.stage == Finished(false)
    ensures Coalescing(ApplyFinish(s))
  {
    FlattenSnoc(s.completed, s.drain.turn.batch);
  }

  lemma HeadKeepsCoalescing(s: State)
    requires Inv(s) && s.drain.AtHead?
    ensures Coalescing(ApplyHead(s))
  {
    if s.queue != [] {
      FreePrefixIsTaken(s.owed, s.queue);
    }
  }

  lemma TurnStepKeepsCoalescing(s: State, step: Step)
    requires Inv(s) && Enabled(s, step) && IsTurnStep(step)
    ensures Coalescing(Apply(s, step))
  {
    TurnStepKeeps(s.drain.turn, s.inflight.value, s.interrupts, step);
  }

  lemma EnqueueKeepsCoalescing(s: State, m: Message)
    requires Slot(s) && Coalescing(s)
    ensures Coalescing(ApplyEnqueue(s, m))
  {
  }

  lemma StartKeepsCoalescing(s: State, k: nat)
    requires Slot(s) && Coalescing(s) && CanStart(s.chain, k)
    ensures Coalescing(ApplyStart(s, k))
  {
  }

  lemma ChainKeepsCoalescing(s: State, chain: Chain)
    requires Coalescing(s)
    ensures Coalescing(s.(chain := chain))
  {
  }

  lemma CoalescingKept(s: State, step: Step)
    requires Inv(s) && Enabled(s, step)
    ensures Coalescing(Apply(s, step))
  {
    hide Slot, Ledger, TurnInv, Coalescing;
    match step {
      case Finish =>
        if s.drain.turn.stage.aborted { AbortedFinishKeepsCoalescing(s); } else { CompletedFinishKeepsCoalescing(s); }
      case Head => HeadKeepsCoalescing(s);
      case Enqueue(m) => EnqueueKeepsCoalescing(s, m);
      case StartJob(k) => StartKeepsCoalescing(s, k);
      case CallOther => ChainKeepsCoalescing(s, Call(s.chain, OtherJob));
      case SettleJob(k) => ChainKeepsCoalescing(s, Settle(s.chain, k));
      case CollectJob(k) => ChainKeepsCoalescing(s, Collect(s.chain, k));
      case _ => TurnStepKeepsCoalescing(s, step);
    }
  }

  lemma InvKept(s: State, step: Step)
    requires Inv(s) && Enabled(s, step)
    ensures Inv(Apply(s, step))
  {
    LedgerKept(s, step);
    SlotKept(s, step);
    TurnKept(s, step);
    CoalescingKept(s, step);
  }

  // ------------------------------------------------------------ whole runs

  /** The state a run of steps leads to, if every step was enabled. */
  function Exec(s: State, steps: seq<Step>): Option<State> {
    if steps == [] then Some(s)
    else
      match Exec(s, steps[..|steps| - 1])
      case None => None
      case Some(t) => if Enabled(t, steps[|steps| - 1]) then Some(Apply(t, steps[|steps| - 1])) else None
  }

  /** Do these steps, taken from the beginning, lead here? */
  ghost predicate Reached(steps: seq<Step>, s: State) {
    Exec(INIT, steps) == Some(s)
  }

  lemma ReachedNext(steps: seq<Step>, s: State, step: Step)
    requires Inv(s) && Reached(steps, s) && Enabled(s, step)
    ensures Inv(Apply(s, step)) && Reached(steps + [step], Apply(s, step))
  {
    InvKept(s, step);
    assert (steps + [step])[..|steps|] == steps;
  }

  /** The texts that arrived during a run, in arrival order. */
  function Arrivals(steps: seq<Step>): seq<Message> {
    if steps == [] then []
    else
      var last := steps[|steps| - 1];
      Arrivals(steps[..|steps| - 1]) + if last.Enqueue? then [last.message] else []
  }

  lemma {:induction false} RunsKeepInv(steps: seq<Step>)
    ensures Exec(INIT, steps).Some? ==> Inv(Exec(INIT, steps).value)
    ensures Exec(INIT, steps).Some? ==> Exec(INIT, steps).value.arrived == Arrivals(steps)
  {
    if steps != [] {
      var before := steps[..|steps| - 1];
      RunsKeepInv(before);
      if Exec(INIT, steps).Some? {
        InvKept(Exec(INIT, before).value, steps[|steps| - 1]);
      }
    }
  }

  /**
   * Conservation: in every reachable state the texts that arrived are exactly the
   * completed batches, then the batch in flight, then the queue, in arrival order;
   * and every batch is a lone tap-back or all free text.
   */
  lemma NothingLostDuplicatedOrReordered(steps: seq<Step>)
    requires Exec(INIT, steps).Some?
    ensures
      var s := Exec(INIT, steps).value;
      && Arrivals(steps) == Flatten(s.completed) + CurrentBatch(s) + s.queue
      && (forall i :: 0 <= i < |s.completed| ==> WellFormedBatch(s.completed[i]))
      && (s.drain.InTurn? ==> WellFormedBatch(s.drain.turn.batch))
  {
    RunsKeepInv(steps);
  }

  /**
   * Interrupts hit uncommitted turns only, an interrupted turn never commits, and a
   * turn reported as aborted ran no tool and sent no text.
   */
  lemma AbortsNeverMeetCommits(steps: seq<Step>, step: Step)
    requires Exec(INIT, steps).Some? && Enabled(Exec(INIT, steps).value, step)
    requires Exec(INIT, steps).value.drain.InTurn? && !step.Finish?
    ensures
      var s := Exec(INIT, steps).value;
      var t := Apply(s, step);
      && s.inflight.Some? && t.inflight.Some?
      && t.drain.InTurn? && t.drain.turn.batch == s.drain.turn.batch
      && (t.inflight.value.aborted && !s.inflight.value.aborted ==>
            step.Enqueue? && !s.inflight.value.committed && s.inflight.value.interruptible)
      && (t.inflight.value.committed && !s.inflight.value.committed ==> !t.inflight.value.aborted)
      && (s.inflight.value.committed ==> t.inflight.value.committed && !t.inflight.value.aborted)
      && (s.inflight.value.aborted ==> t.inflight.value.aborted && !t.inflight.value.committed)
      && (t.drain.turn.tools > 0 ==> t.inflight.value.committed)
      && (t.drain.turn.stage == Finished(true) ==>
            !t.inflight.value.committed && t.drain.turn.tools == 0 && t.drain.turn.texts == 0)
  {
    RunsKeepInv(steps);
    var s := Exec(INIT, steps).value;
    InvKept(s, step);
  }

  /** While an uncommitted turn has sent a text, it is past its last interrupt check. */
  lemma {:induction false} SilentUntilCommitOrFailure(steps: seq<Step>)
    requires Exec(INIT, steps).Some? && Exec(INIT, steps).value.drain.InTurn?
    ensures
      var s := Exec(INIT, steps).value;
      && s.inflight.Some?
      && (s.drain.turn.texts > 0 && !s.inflight.value.committed ==>
        s.drain.turn.stage.Clarifying? || s.drain.turn.stage.Apologising? || s.drain.turn.stage == Finished(false))
  {
    RunsKeepInv(steps);
  }

  /**
   * The interrupt point at the top of a round is reached uncommitted in the first round
   * and committed in every later one; committed, it is never reached aborted.
   */
  lemma {:induction false} InterruptPointExactly(steps: seq<Step>)
    requires Exec(INIT, steps).Some? && Exec(INIT, steps).value.drain.InTurn?
    ensures
      var s := Exec(INIT, steps).value;
      && s.inflight.Some?
      && (s.drain.turn.stage.AwaitingModel? ==>
            && (s.inflight.value.committed <==> s.drain.turn.stage.round > 0)
            && (s.drain.turn.stage.round > 0 ==> !s.inflight.value.aborted))
  {
    RunsKeepInv(steps);
  }

  /** No text takes part in more than five aborted attempts. */
  lemma CoalescingIsBounded(steps: seq<Step>, p: nat)
    requires Exec(INIT, steps).Some?
    ensures Covering(Exec(INIT, steps).value.attempts, p) <= MAX_COALESCE_INTERRUPTS
  {
    RunsKeepInv(steps);
  }

  /** Steps that are neither the loop head nor the end of a turn leave a re-queued batch at the front. */
  lemma {:induction false} OwedStays(s: State, steps: seq<Step>)
    requires Inv(s) && s.drain.AtHead? && Exec(s, steps).Some?
    requires forall i :: 0 <= i < |steps| ==> !steps[i].Head?
    ensures Inv(Exec(s, steps).value)
    ensures Exec(s, steps).value.drain.AtHead? && Exec(s, steps).value.owed == s.owed
  {
    if steps != [] {
      OwedStays(s, steps[..|steps| - 1]);
      InvKept(Exec(s, steps[..|steps| - 1]).value, steps[|steps| - 1]);
    }
  }

  /**
   * After an abort, whatever else happens before the loop comes round, the next
   * batch begins with the aborted batch.
   */
  lemma NextBatchExtendsAbortedBatch(s: State, steps: seq<Step>)
    requires Inv(s) && Enabled(s, Finish) && s.drain.turn.stage.aborted
    requires Exec(Apply(s, Finish), steps).Some?
    requires forall i :: 0 <= i < |steps| ==> !steps[i].Head?
    ensures
      var t := Exec(Apply(s, Finish), steps).value;
      Enabled(t, Head) && Apply(t, Head).drain.InTurn? && s.drain.turn.batch <= Apply(t, Head).drain.turn.batch
  {
    InvKept(s, Finish);
    OwedStays(Apply(s, Finish), steps);
    var t := Exec(Apply(s, Finish), steps).value;
    FreePrefixIsTaken(t.owed, t.queue);
  }

  /**
   * No lost wakeup and no double drain: pending texts imply a live drain whose job
   * is waiting or running, that job is the only live one, and at most one turn of
   * the account runs.
   */
  lemma OneDrainOneTurn(steps: seq<Step>, i: nat, j: nat)
    requires Exec(INIT, steps).Some?
    ensures
      var s := Exec(INIT, steps).value;
      && (s.queue != [] || s.drain.InTurn? ==>
            && s.drainActive && s.live.Some? && s.live.value < |s.chain.jobs|
            && !s.chain.jobs[s.live.value].phase.Settled?)
      && (s.drain.InTurn? ==> s.chain.jobs[s.live.value].phase.Running?)
      && (i < |s.chain.jobs| && j < |s.chain.jobs| ==>
            s.chain.jobs[i].phase.Running? && s.chain.jobs[j].phase.Running? ==> i == j)
      && (i < j < |s.chain.jobs| && !s.chain.jobs[j].phase.Waiting? ==> s.chain.jobs[i].phase.Settled?)
  {
    RunsKeepInv(steps);
    var s := Exec(INIT, steps).value;
    if i < j < |s.chain.jobs| && !s.chain.jobs[j].phase.Waiting? {
      assert SettledBefore(s.chain, j);
    }
    if i < |s.chain.jobs| && j < |s.chain.jobs| && s.chain.jobs[i].phase.Running? && s.chain.jobs[j].phase.Running? {
      AtMostOneRunning(s.chain, i, j);
    }
  }

  // ------------------------------------------------------------ progress

  /** A step by which the account's work moves on without any new arrival. */
  predicate Internal(step: Step) {
    !step.Enqueue? && !step.CallOther? && !step.CollectJob?
  }

  lemma FirstWaiting(c: Chain, k: nat) returns (j: nat)
    requires k < |c.jobs| && c.jobs[k].phase.Waiting?
    ensures j <= k && c.jobs[j].phase.Waiting?
    ensures forall i :: 0 <= i < j ==> !c.jobs[i].phase.Waiting?
  {
    j := 0;
    while !c.jobs[j].phase.Waiting?
      invariant j <= k
      invariant forall i :: 0 <= i < j ==> !c.jobs[i].phase.Waiting?
      decreases k - j
    {
      j := j + 1;
    }
  }

  /** Pending work is never stuck: some internal step is enabled. */
  lemma PendingWorkCanMove(s: State) returns (step: Step)
    requires Inv(s) && (s.queue != [] || s.drain.InTurn?)
    ensures Internal(step) && Enabled(s, step)
  {
    if s.drain.Scheduled? {
      var j := FirstWaiting(s.chain, s.live.value);
      if CanStart(s.chain, j) {
        step := StartJob(j);
      } else {
        step := SettleJob(j - 1);
      }
    } else if s.drain.AtHead? {
      step := Head;
    } else {
      match s.drain.turn.stage {
        case Loading => step := Loaded(true);
        case AwaitingModel(_) => step := ModelFails;
        case RunningTools(_, _) => step := ToolDone;
        case SendingProse => step := ProseSent(true);
        case Recording => step := Recorded(true);
        case Clarifying => step := ClarifySent;
        case Apologising => step := ApologySent;
        case Finished(_) => step := Finish;
      }
    }
  }

  function StageRank(drain: Drain): (int, int) {
    match drain
    case Idle => (0, 0)
    case Scheduled => (33, 0)
    case AtHead => (32, 0)
    case InTurn(turn) =>
      match turn.stage
      case Loading => (31, 0)
      case AwaitingModel(r) => (30 - 2 * r, 0)
      case RunningTools(r, calls) => (29 - 2 * r, |calls|)
      case SendingProse => (5, 0)
      case Recording => (4, 0)
      case Clarifying => (3, 0)
      case Apologising => (2, 0)
      case Finished(_) => (1, 0)
  }

  /** Arrivals still to come, counting an interrupt that has yet to take effect as half of one. */
  function ArrivalBudget(s: State, remaining: nat): nat {
    2 * remaining + if s.inflight.Some? && s.inflight.value.aborted then 1 else 0
  }

  function Pending(s: State): nat {
    |s.queue| + |CurrentBatch(s)| + if s.drain.Idle? then 0 else 1
  }

  /** The lexicographic measure of a drain with `remaining` texts still to arrive. */
  predicate Below(s: State, remaining: nat, t: State, remaining': nat) {
    var (a, b) := StageRank(s.drain);
    var (c, d) := StageRank(t.drain);
    || ArrivalBudget(s, remaining) < ArrivalBudget(t, remaining')
    || (&& ArrivalBudget(s, remaining) == ArrivalBudget(t, remaining')
        && (|| Pending(s) < Pending(t)
            || (Pending(s) == Pending(t) && (a < c || (a == c && b < d)))))
  }

  /** Is this a step of the drain itself, as opposed to another turn or the chain's clean-up? */
  predicate OfDrain(s: State, step: Step) {
    match step
    case Enqueue(_) => false
    case CallOther => false
    case StartJob(k) => s.live == Some(k)
    case SettleJob(_) => false
    case CollectJob(_) => false
    case _ => true
  }

  lemma TurnStepDescends(turn: Turn, f: Inflight, interrupts: nat, s: State, step: Step)
    requires TurnOk(turn, f, interrupts)
    requires s.drain == InTurn(turn) && s.inflight == Some(f) && Enabled(s, step)
    requires IsTurnStep(step)
    ensures
      var (turn', _) := TurnStep(turn, f, step);
      var (a, b) := StageRank(InTurn(turn'));
      var (c, d) := StageRank(InTurn(turn));
      a < c || (a == c && b < d)
  {
  }

  /** Every step of the drain, and every arrival, descends: with finitely many arrivals a drain ends. */
  lemma DrainDescends(s: State, step: Step, remaining: nat)
    requires Inv(s) && Enabled(s, step)
    ensures OfDrain(s, step) ==> Below(Apply(s, step), remaining, s, remaining)
    ensures step.Enqueue? && remaining > 0 && s.drainActive ==> Below(Apply(s, step), remaining - 1, s, remaining)
  {
    match step {
      case Head =>
      case Finish =>
      case StartJob(_) =>
      case Enqueue(_) =>
      case CallOther =>
      case SettleJob(_) =>
      case CollectJob(_) =>
      case _ =>
        TurnStepDescends(s.drain.turn, s.inflight.value, s.interrupts, s, step);
        TurnStepKeeps(s.drain.turn, s.inflight.value, s.interrupts, step);
    }
  }
}
