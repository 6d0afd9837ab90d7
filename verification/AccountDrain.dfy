/**
 * The scheduler as the code runs it: one object per account whose methods update
 * the queue, the drain slot and the in-flight record. Each method is tied to the
 * step system, and the drain loop is proved to finish everything that arrived.
 */
module AccountDrain {
  import opened Common
  import opened AccountLock
  import opened Scheduler
  import opened SchedulerSafety
  import opened SchedulerTurns

  /** What the environment does, in order: texts and other turns come in, awaited operations settle. */
  datatype Event = Arrives(message: Message) | OtherTurn | Settles(outcome: Outcome)

  datatype Outcome = Succeeds | Fails | Escapes | Replies(calls: seq<ToolCall>, prose: bool)

  datatype TurnEnd = Threw | Returned(aborted: bool)

  function News(event: Event): seq<Message> {
    if event.Arrives? then [event.message] else []
  }

  /** The texts among the events from `at` up to `next`. */
  ghost function ArrivalsIn(script: seq<Event>, at: nat, next: nat): seq<Message>
    requires at <= next <= |script|
    decreases next
  {
    if next == at then [] else ArrivalsIn(script, at, next - 1) + News(script[next - 1])
  }

  /** How the operation awaited from `at` on settles; a script that has run out lets it fail. */
  ghost function Awaited(script: seq<Event>, at: nat): Outcome
    requires at <= |script|
    decreases |script| - at
  {
    if at == |script| then Fails
    else if script[at].Settles? then script[at].outcome
    else Awaited(script, at + 1)
  }

  lemma {:induction false} ArrivalsSplit(script: seq<Event>, at: nat, mid: nat, next: nat)
    requires at <= mid <= next <= |script|
    ensures ArrivalsIn(script, at, next) == ArrivalsIn(script, at, mid) + ArrivalsIn(script, mid, next)
    decreases next
  {
    if next > mid { ArrivalsSplit(script, at, mid, next - 1); }
  }

  /** What has arrived goes on growing by the script, and fewer texts are left to come. */
  lemma ArrivedOn(start: seq<Message>, middle: seq<Message>, now: seq<Message>, script: seq<Event>, mid: nat, next: nat)
    requires mid <= next <= |script|
    requires middle == start + ArrivalsIn(script, 0, mid) && now == middle + ArrivalsIn(script, mid, next)
    ensures now == start + ArrivalsIn(script, 0, next)
    ensures |ArrivalsIn(script, mid, |script|)| == |ArrivalsIn(script, mid, next)| + |ArrivalsIn(script, next, |script|)|
  {
    ArrivalsSplit(script, 0, mid, next);
    ArrivalsSplit(script, mid, next, |script|);
  }

  /**
   * All that can change while a turn is suspended and `news` comes in: texts join the
   * queue, other turns join the chain, and an interrupt may be raised by a new text.
   */
  ghost predicate OnlyArrivals(s: State, t: State, news: seq<Message>) {
    && t.drain == s.drain && t.drainActive == s.drainActive && t.interrupts == s.interrupts && t.live == s.live
    && t.completed == s.completed && t.attempts == s.attempts && t.owed == s.owed
    && t.arrived == s.arrived + news
    && s.inflight.Some? && t.inflight.Some?
    && t.inflight.value.committed == s.inflight.value.committed
    && (s.inflight.value.aborted ==> t.inflight.value.aborted)
    && (t.inflight.value.aborted && !s.inflight.value.aborted ==> news != [])
  }

  lemma EventIsArrival(s: State, event: Event)
    requires Inv(s) && s.drain.InTurn? && !event.Settles?
    ensures OnlyArrivals(s, Apply(s, if event.Arrives? then Enqueue(event.message) else CallOther), News(event))
  {
  }

  lemma OnlyArrivalsExtend(s: State, t: State, u: State, script: seq<Event>, at: nat, next: nat)
    requires at <= next < |script| && OnlyArrivals(s, t, ArrivalsIn(script, at, next))
    requires OnlyArrivals(t, u, News(script[next])) || (t == u && script[next].Settles?)
    ensures OnlyArrivals(s, u, ArrivalsIn(script, at, next + 1))
  {
  }

  lemma LiveJobRuns(s: State)
    requires Inv(s) && s.drain.AtHead?
    ensures s.live.Some? && s.live.value < |s.chain.jobs| && s.chain.jobs[s.live.value].phase.Running?
  {
  }

  lemma InTurnHasInflight(s: State)
    requires Inv(s) && s.drain.InTurn?
    ensures s.inflight.Some? && !(s.inflight.value.aborted && s.inflight.value.committed)
  {
  }

  /** The history after `since` has this step. */
  ghost predicate Took(since: seq<Step>, history: seq<Step>, step: Step) {
    exists k :: |since| <= k < |history| && history[k] == step
  }

  lemma TookNext(since: seq<Step>, middle: seq<Step>, history: seq<Step>, step: Step)
    requires since <= middle && middle + [step] <= history
    ensures Took(since, history, step)
  {
    assert history[|middle|] == step;
  }

  /** All that can change from one point of a turn to a later one while `news` comes in. */
  ghost predicate DuringTurn(s: State, t: State, news: seq<Message>) {
    && s.drain.InTurn? && t.drain.InTurn? && t.drain.turn.batch == s.drain.turn.batch
    && t.drainActive == s.drainActive && t.interrupts == s.interrupts && t.live == s.live
    && t.completed == s.completed && t.attempts == s.attempts && t.owed == s.owed
    && t.arrived == s.arrived + news
    && s.inflight.Some? && t.inflight.Some?
    && (s.inflight.value.aborted ==> t.inflight.value.aborted)
    && (t.inflight.value.aborted && !s.inflight.value.aborted ==> news != [])
  }

  lemma DuringTurnCompose(s: State, t: State, u: State, script: seq<Event>, at: nat, mid: nat, next: nat)
    requires at <= mid <= next <= |script|
    requires DuringTurn(s, t, ArrivalsIn(script, at, mid)) && DuringTurn(t, u, ArrivalsIn(script, mid, next))
    ensures DuringTurn(s, u, ArrivalsIn(script, at, next))
  {
    ArrivalsSplit(script, at, mid, next);
  }

  /** A pass during which nothing arrived completes its batch. */
  lemma PassShrinks(s: State, t: State, u: State, news: seq<Message>)
    requires Inv(s) && s.drain.AtHead? && s.queue != [] && t == ApplyHead(s)
    requires Inv(u) && DuringTurn(t, u, news) && u.drain.turn.stage.Finished?
    ensures news == [] ==> |ApplyFinish(u).queue| < |s.queue| && !u.drain.turn.stage.aborted
  {
    BatchShape(s.queue);
    assert |s.arrived| == |Flatten(s.completed)| + |s.queue|;
    assert |u.arrived| == |Flatten(u.completed)| + |u.drain.turn.batch| + |u.queue|;
  }

  class Account {
    var queue: seq<Message>
    var drainActive: bool
    var inflight: Option<Inflight>
    var interrupts: nat
    var chain: Chain
    ghost var live: Option<nat>
    ghost var drain: Drain
    ghost var arrived: seq<Message>
    ghost var completed: seq<seq<Message>>
    ghost var attempts: seq<Attempt>
    ghost var owed: seq<Message>
    ghost var history: seq<Step>

    ghost function View(): State
      reads this
    {
      State(queue, drainActive, inflight, interrupts, drain, chain, live, arrived, completed, attempts, owed)
    }

    /** The object is where the steps of its history lead. */
    ghost predicate Valid()
      reads this
    {
      Inv(View()) && Reached(history, View())
    }

    constructor ()
      ensures Valid() && View() == INIT && history == []
    {
      queue, drainActive, inflight, interrupts, chain := [], false, None, 0, Chain([], None);
      live, drain, arrived, completed, attempts, owed, history := None, Idle, [], [], [], [], [];
    }

    /** Chain a call behind the account's promise chain; `job` is its place in call order. */
    method CallLock(kind: Kind) returns (job: nat)
      modifies `chain
      ensures chain == Call(old(chain), kind) && job == |old(chain).jobs|
    {
      job := |chain.jobs|;
      chain := Chain(chain.jobs + [Job(kind, chain.entry, Waiting)], Some(job));
    }

    /** The clean-up callback of a settled call. */
    method CollectEntry(job: nat)
      requires Valid() && job < |chain.jobs| && chain.jobs[job].phase.Settled?
      modifies `chain, `history
      ensures Valid() && View() == Apply(old(View()), CollectJob(job)) && history == old(history) + [CollectJob(job)]
      ensures chain.entry != old(chain.entry) ==> job + 1 == |chain.jobs|
    {
      ghost var s := View();
      ReachedNext(history, s, CollectJob(job));
      history := history + [CollectJob(job)];
      if chain.entry == Some(job) {
        chain := chain.(entry := None);
      }
    }

    /** Record that one step led here from state `s`. */
    ghost method Log(s: State, step: Step)
      requires Inv(s) && Reached(history, s) && Enabled(s, step) && View() == Apply(s, step)
      modifies `history
      ensures Valid() && history == old(history) + [step]
    {
      ReachedNext(history, s, step);
      history := history + [step];
    }

    method EnqueueUserMessage(inbound: Message)
      requires Valid()
      modifies this
      ensures Valid() && View() == Apply(old(View()), Enqueue(inbound)) && history == old(history) + [Enqueue(inbound)]
      ensures queue == old(queue) + [inbound] && drainActive && drain == if old(drainActive) then old(drain) else Scheduled
      ensures old(drain).InTurn? ==>
                && old(inflight).Some?
                && inflight == Some(old(inflight.value).(aborted :=
                     old(inflight.value).aborted || Interrupts(old(View()), inbound)))
    {
      ghost var s := View();
      if drain.InTurn? { ArrivalRaisesExactly(s, inbound); }
      Push(inbound);
      Log(s, Enqueue(inbound));
    }

    /** Push the text; interrupt the turn in flight if a drain is alive, else start one. */
    method Push(inbound: Message)
      modifies this
      ensures View() == ApplyEnqueue(old(View()), inbound) && history == old(history)
    {
      queue := queue + [inbound];
      arrived := arrived + [inbound];
      if drainActive {
        if inflight.Some? && ShouldInterrupt(inflight, inbound) {
          inflight := Some(inflight.value.(aborted := true));
        }
        return;
      }
      drainActive := true;
      var job := CallLock(DrainJob);
      interrupts, drain, live := 0, Scheduled, Some(job);
    }

    /** Take the next batch off the queue: a lone tap-back, or the leading run of free text. */
    method TakeBatch() returns (batch: seq<Message>)
      modifies `queue
      ensures batch == old(queue)[..BatchLength(old(queue))]
      ensures queue == old(queue)[BatchLength(old(queue))..]
    {
      if queue == [] { return []; }
      var n := 1;
      if !queue[0].tapBack {
        while n < |queue| && !queue[n].tapBack
          invariant 1 <= n <= |queue|
          invariant FreeRun(queue) == n + FreeRun(queue[n..])
          invariant queue == old(queue)
        {
          assert queue[n..][1..] == queue[n + 1..];
          n := n + 1;
        }
      }
      batch, queue := queue[..n], queue[n..];
    }

    // ---------------------------------------------------------- awaits

    /** A turn that was suspended in state `s`, after `since`, has met some events so far. */
    ghost predicate Suspended(s: State, since: seq<Step>, script: seq<Event>, at: nat, next: nat)
      reads this
    {
      && at <= next <= |script| && since <= history
      && Valid() && drain.InTurn? && OnlyArrivals(s, View(), ArrivalsIn(script, at, next))
    }

    /** One event of the environment meanwhile. */
    method TakeEvent(script: seq<Event>, at: nat, next: nat, ghost s: State, ghost since: seq<Step>)
      requires Suspended(s, since, script, at, next) && next < |script| && !script[next].Settles?
      modifies this
      ensures Suspended(s, since, script, at, next + 1)
    {
      ghost var t := View();
      match script[next] {
        case Arrives(m) =>
          EnqueueUserMessage(m);
        case OtherTurn =>
          var _ := CallLock(OtherJob);
          Log(t, CallOther);
      }
      assert View() == if script[next].Arrives? then Apply(t, Enqueue(script[next].message)) else Apply(t, CallOther);
      EventIsArrival(t, script[next]);
      OnlyArrivalsExtend(s, t, View(), script, at, next);
    }

    /** Suspend until the awaited operation settles; meanwhile texts and other turns may come in. */
    method Await(script: seq<Event>, at: nat) returns (next: nat, outcome: Outcome)
      requires Valid() && drain.InTurn? && at <= |script|
      modifies this
      ensures Valid() && at <= next <= |script| && OnlyArrivals(old(View()), View(), ArrivalsIn(script, at, next))
      ensures old(history) <= history && outcome == Awaited(script, at)
    {
      hide Inv, Reached;
      next := at;
      ghost var s, since := View(), history;
      InTurnHasInflight(s);
      while next < |script| && !script[next].Settles?
        invariant Suspended(s, since, script, at, next) && Awaited(script, at) == Awaited(script, next)
      {
        TakeEvent(script, at, next, s, since);
        next := next + 1;
      }
      if next == |script| { return next, Fails; }
      OnlyArrivalsExtend(s, View(), View(), script, at, next);
      outcome, next := script[next].outcome, next + 1;
    }

    /** Record that the turn moves on from state `s` by `step`. */
    ghost method Resume(s: State, step: Step)
      requires Inv(s) && Enabled(s, step) && IsTurnStep(step)
      requires View() == s.(inflight := Apply(s, step).inflight, drain := drain)
      requires Reached(history, s)
      modifies `drain, `history
      ensures Valid() && View() == Apply(s, step) && history == old(history) + [step]
    {
      ReachedNext(history, s, step);
      history := history + [step];
      drain := Apply(s, step).drain;
    }

    /** The commit latch: set before the first side effect. */
    method Commit()
      requires inflight.Some?
      modifies `inflight
      ensures inflight == Some(old(inflight.value).(committed := true))
    {
      inflight := Some(inflight.value.(committed := true));
    }

    // ---------------------------------------------------------- one turn

    /** How the end of the assistant turn shows in the turn's stage. */
    ghost predicate EndsAt(end: TurnEnd)
      reads this
    {
      && drain.InTurn?
      && match end
         case Threw => drain.turn.stage.Clarifying?
         case Returned(aborted) => drain.turn.stage == if aborted then Finished(true) else Recording
    }

    /** Wait for the tool that is running; the next one of the round begins, or the next round. */
    method OneTool(script: seq<Event>, at: nat, round: nat, ghost rest: seq<ToolCall>) returns (next: nat)
      requires Valid() && drain.InTurn? && at <= |script|
      requires rest != [] && drain.turn.stage == RunningTools(round, rest) && inflight.value.committed
      modifies this
      ensures Valid() && at <= next <= |script| && DuringTurn(old(View()), View(), ArrivalsIn(script, at, next))
      ensures old(history) <= history
      ensures inflight.value.committed
      ensures drain.turn == NextCall(old(drain.turn), false, round, rest[1..])
    {
      var settled;
      next, settled := Await(script, at);
      Resume(View(), ToolDone);
    }

    /** Run the tool calls of one round, one after the other. */
    method RunTools(script: seq<Event>, at: nat, round: nat, calls: seq<ToolCall>, sawBefore: bool)
      returns (next: nat, sawMessageUser: bool)
      requires Valid() && drain.InTurn? && at <= |script|
      requires calls != [] && drain.turn.stage == RunningTools(round, calls) && inflight.value.committed
      requires drain.turn.sawMessageUser == (sawBefore || calls[0].messagesUser)
      modifies this
      ensures Valid() && at <= next <= |script| && DuringTurn(old(View()), View(), ArrivalsIn(script, at, next))
      ensures old(history) <= history
      ensures inflight.value.committed && !inflight.value.aborted
      ensures drain.turn.stage == RoundTop(drain.turn, false, round + 1).stage
      ensures drain.turn.sawMessageUser == sawMessageUser
    {
      hide Reached;
      next, sawMessageUser := at, sawBefore;
      var i := 0;
      ghost var s := View();
      while i < |calls|
        invariant i <= |calls| && at <= next <= |script|
        invariant old(history) <= history
        invariant Valid() && DuringTurn(s, View(), ArrivalsIn(script, at, next)) && inflight.value.committed
        invariant i < |calls| ==> drain.turn.stage == RunningTools(round, calls[i..])
        invariant i == |calls| ==> drain.turn.stage == RoundTop(drain.turn, false, round + 1).stage
        invariant drain.turn.sawMessageUser == (sawMessageUser || (i < |calls| && calls[i].messagesUser))
      {
        sawMessageUser := sawMessageUser || calls[i].messagesUser;
        ghost var t := View();
        var j := OneTool(script, next, round, calls[i..]);
        assert calls[i..][1..] == calls[i + 1..];
        DuringTurnCompose(s, t, View(), script, at, next, j);
        i, next := i + 1, j;
      }
    }

    /** Send the prose a turn ended with: commit first, then the one side effect. */
    method SendProse(script: seq<Event>, at: nat) returns (next: nat, ok: bool)
      requires Valid() && at <= |script| && drain.InTurn? && drain.turn.stage.AwaitingModel?
      requires !inflight.value.aborted && !drain.turn.sawMessageUser
      modifies this
      ensures Valid() && at <= next <= |script| && DuringTurn(old(View()), View(), ArrivalsIn(script, at, next))
      ensures old(history) + [ModelReplies([], true)] <= history
      ensures inflight.value.committed && !inflight.value.aborted
      ensures ok == Awaited(script, at).Succeeds?
      ensures if ok then drain.turn.stage.Recording? else drain.turn.stage.Clarifying?
    {
      hide Inv, Reached;
      InTurnHasInflight(View());
      ghost var s := View();
      Commit();
      Resume(s, ModelReplies([], true));
      ghost var t := View();
      var outcome;
      next, outcome := Await(script, at);
      ok := outcome.Succeeds?;
      Resume(View(), ProseSent(ok));
      InTurnHasInflight(View());
      DuringTurnCompose(s, t, View(), script, at, at, next);
    }

    /** The model stopped calling tools: its prose is sent exactly if nothing was sent yet. */
    method EndTurn(script: seq<Event>, at: nat, prose: bool, sawMessageUser: bool) returns (next: nat, end: TurnEnd)
      requires Valid() && at <= |script| && drain.InTurn? && drain.turn.stage.AwaitingModel?
      requires !inflight.value.aborted && drain.turn.sawMessageUser == sawMessageUser
      modifies this
      ensures Valid() && at <= next <= |script| && DuringTurn(old(View()), View(), ArrivalsIn(script, at, next))
      ensures old(history) + [ModelReplies([], prose)] <= history
      ensures if prose && !sawMessageUser then inflight.value.committed
              else next == at && View() == Apply(old(View()), ModelReplies([], prose))
      ensures EndsAt(end) && !inflight.value.aborted
      ensures end == Threw <==> prose && !sawMessageUser && !Awaited(script, at).Succeeds?
    {
      if !prose || sawMessageUser {
        Resume(View(), ModelReplies([], prose));
        return at, Returned(false);
      }
      var ok;
      next, ok := SendProse(script, at);
      end := if ok then Returned(false) else Threw;
    }

    /** The model replied before any interrupt: end the turn, or commit and run its tools. */
    method FollowReply(script: seq<Event>, at: nat, round: nat, saw: bool, calls: seq<ToolCall>, prose: bool)
      returns (next: nat, sawMessageUser: bool, end: Option<TurnEnd>)
      requires Valid() && at <= |script| && drain.InTurn? && !inflight.value.aborted
      requires drain.turn.stage == AwaitingModel(round) && drain.turn.sawMessageUser == saw
      modifies this
      ensures Valid() && at <= next <= |script| && DuringTurn(old(View()), View(), ArrivalsIn(script, at, next))
      ensures old(history) + [ModelReplies(calls, prose)] <= history
      ensures end.Some? <==> calls == []
      ensures end.Some? ==> EndsAt(end.value) && end != Some(Returned(true))
      ensures !inflight.value.aborted
      ensures end.None? ==> inflight.value.committed
      ensures end.None? ==> drain.turn.stage == RoundTop(drain.turn, inflight.value.aborted, round + 1).stage
      ensures end.None? ==> drain.turn.sawMessageUser == sawMessageUser
    {
      hide Reached;
      ghost var s := View();
      if calls == [] {
        var e;
        next, e := EndTurn(script, at, prose, saw);
        return next, saw, Some(e);
      }
      Commit();
      Resume(s, ModelReplies(calls, prose));
      ghost var t := View();
      next, sawMessageUser := RunTools(script, at, round, calls, saw);
      DuringTurnCompose(s, t, View(), script, at, at, next);
      end := None;
    }

    /** One model round: an end of the turn, or None to go on with the next round. */
    method OneRound(script: seq<Event>, at: nat, round: nat, saw: bool)
      returns (next: nat, sawMessageUser: bool, end: Option<TurnEnd>)
      requires Valid() && at <= |script| && drain.InTurn?
      requires drain.turn.stage == AwaitingModel(round) && drain.turn.sawMessageUser == saw
      modifies this
      ensures Valid() && at <= next <= |script| && DuringTurn(old(View()), View(), ArrivalsIn(script, at, next))
      ensures old(history) <= history
      ensures end.Some? ==> EndsAt(end.value)
      ensures end == Some(Returned(true)) <==> inflight.value.aborted
      ensures !inflight.value.aborted ==>
                match Awaited(script, at)
                case Replies(calls, prose) =>
                  (end.None? <==> calls != []) && Took(old(history), history, ModelReplies(calls, prose))
                case _ => end == Some(Threw)
      ensures end.None? ==> inflight.value.committed
      ensures end.None? ==> drain.turn.stage == RoundTop(drain.turn, inflight.value.aborted, round + 1).stage
      ensures end.None? ==> drain.turn.sawMessageUser == sawMessageUser
    {
      hide Inv, Reached, Took;
      InTurnHasInflight(View());
      ghost var s := View();
      sawMessageUser := saw;
      var j, outcome := Await(script, at);
      next := j;
      if !outcome.Replies? {
        Resume(View(), ModelFails);
        return next, saw, Some(if inflight.value.aborted then Returned(true) else Threw);
      }
      var Replies(calls, prose) := outcome;
      ghost var u, middle := View(), history;
      if inflight.value.aborted {
        Resume(u, ModelReplies(calls, prose));
        return next, saw, Some(Returned(true));
      }
      next, sawMessageUser, end := FollowReply(script, j, round, saw, calls, prose);
      DuringTurnCompose(s, u, View(), script, at, j, next);
      TookNext(old(history), middle, history, ModelReplies(calls, prose));
    }

    /**
     * Drive the assistant turn: ask the model, run its tools, until it ends the turn,
     * fails, is interrupted while uncommitted, or reaches the round cap.
     */
    method RunAssistantTurn(script: seq<Event>, at: nat, hasKey: bool) returns (next: nat, end: TurnEnd, rounds: nat)
      requires Valid() && at <= |script| && drain.InTurn? && drain.turn.stage.Loading?
      requires !drain.turn.sawMessageUser
      modifies this
      ensures Valid() && at <= next <= |script| && DuringTurn(old(View()), View(), ArrivalsIn(script, at, next))
      ensures old(history) + [Loaded(hasKey)] <= history
      ensures EndsAt(end) && rounds <= MAX_ROUNDS
      ensures if hasKey then end == Returned(true) <==> inflight.value.aborted else end == Threw
    {
      hide Inv, Reached, Took, Awaited;
      InTurnHasInflight(View());
      next := at;
      ghost var s := View();
      if !hasKey {
        Resume(s, Loaded(false));
        return next, Threw, 0;
      }
      Resume(s, Loaded(true));
      var round, sawMessageUser := 0, false;
      while round < MAX_ROUNDS
        invariant round <= MAX_ROUNDS && at <= next <= |script|
        invariant old(history) + [Loaded(hasKey)] <= history
        invariant Valid() && DuringTurn(s, View(), ArrivalsIn(script, at, next))
        invariant drain.turn.stage == RoundTop(drain.turn, inflight.value.aborted, round).stage
        invariant drain.turn.sawMessageUser == sawMessageUser
        invariant round == MAX_ROUNDS ==> !inflight.value.aborted
      {
        if inflight.value.aborted { return next, Returned(true), round; }
        ghost var t, mid := View(), next;
        var ended;
        next, sawMessageUser, ended := OneRound(script, next, round, sawMessageUser);
        DuringTurnCompose(s, t, View(), script, at, mid, next);
        if ended.Some? { return next, ended.value, if ended.value == Returned(true) then round else round + 1; }
        round := round + 1;
      }
      end, rounds := Returned(false), MAX_ROUNDS;
    }

    /** The body of a user turn: load the context, then drive the assistant turn. */
    method LoadAndRun(script: seq<Event>, at: nat, hasKey: bool) returns (next: nat, end: TurnEnd)
      requires Valid() && at <= |script| && drain.InTurn? && drain.turn.stage.Loading?
      requires !drain.turn.sawMessageUser
      modifies this
      ensures Valid() && at <= next <= |script| && DuringTurn(old(View()), View(), ArrivalsIn(script, at, next))
      ensures old(history) <= history
      ensures EndsAt(end)
      ensures !Awaited(script, at).Succeeds? || !hasKey ==> end == Threw
      ensures Took(old(history), history, Loaded(Awaited(script, at).Succeeds? && hasKey))
    {
      ghost var s := View();
      var j, loaded := Await(script, at);
      ghost var t, middle := View(), history;
      if !loaded.Succeeds? {
        Resume(t, Loaded(false));
        TookNext(old(history), middle, history, Loaded(false));
        return j, Threw;
      }
      var rounds;
      next, end, rounds := RunAssistantTurn(script, j, hasKey);
      TookNext(old(history), middle, history, Loaded(hasKey));
      DuringTurnCompose(s, t, View(), script, at, j, next);
    }

    /** Record the actions of a turn that ran; that may throw. */
    method Record(script: seq<Event>, at: nat) returns (next: nat, failed: bool)
      requires Valid() && at <= |script| && drain.InTurn? && drain.turn.stage.Recording?
      modifies this
      ensures Valid() && at <= next <= |script| && DuringTurn(old(View()), View(), ArrivalsIn(script, at, next))
      ensures old(history) <= history
      ensures failed == !Awaited(script, at).Succeeds?
      ensures if failed then drain.turn.stage.Clarifying? else drain.turn.stage == Finished(false)
    {
      hide Reached;
      var settled;
      next, settled := Await(script, at);
      failed := !settled.Succeeds?;
      Resume(View(), Recorded(!failed));
    }

    /** The catch branch of a user turn: the clarify text, fail-closed, unless the error escapes even that. */
    method ClarifyUser(script: seq<Event>, at: nat) returns (next: nat, threw: bool)
      requires Valid() && at <= |script| && drain.InTurn? && drain.turn.stage.Clarifying?
      modifies this
      ensures Valid() && at <= next <= |script| && DuringTurn(old(View()), View(), ArrivalsIn(script, at, next))
      ensures old(history) <= history
      ensures threw == Awaited(script, at).Escapes?
      ensures drain.turn.stage == if threw then Apologising else Finished(false)
    {
      hide Reached;
      var settled;
      next, settled := Await(script, at);
      threw := settled.Escapes?;
      Resume(View(), if threw then TurnThrows else ClarifySent);
    }

    /** What follows the assistant turn: record, and clarify whatever threw up to then. */
    method RecordOrClarify(script: seq<Event>, at: nat, failed: bool) returns (next: nat, threw: bool)
      requires Valid() && at <= |script| && drain.InTurn?
      requires if failed then drain.turn.stage.Clarifying? else drain.turn.stage.Recording?
      modifies this
      ensures Valid() && at <= next <= |script| && DuringTurn(old(View()), View(), ArrivalsIn(script, at, next))
      ensures old(history) <= history
      ensures if failed then threw == Awaited(script, at).Escapes? else (Awaited(script, at).Succeeds? ==> !threw)
      ensures drain.turn.stage == if threw then Apologising else Finished(false)
    {
      if failed {
        next, threw := ClarifyUser(script, at);
        return;
      }
      ghost var s := View();
      var j, recordFailed := Record(script, at);
      if !recordFailed { return j, false; }
      ghost var t := View();
      next, threw := ClarifyUser(script, j);
      DuringTurnCompose(s, t, View(), script, at, j, next);
    }

    /** A user turn over the batch in flight: was it interrupted, or did an error escape it? */
    method RunUserTurn(script: seq<Event>, at: nat, hasKey: bool) returns (next: nat, aborted: bool, threw: bool)
      requires Valid() && at <= |script| && drain.InTurn? && drain.turn.stage.Loading?
      requires !drain.turn.sawMessageUser
      modifies this
      ensures Valid() && at <= next <= |script| && DuringTurn(old(View()), View(), ArrivalsIn(script, at, next))
      ensures old(history) <= history
      ensures drain.turn.stage == if threw then Apologising else Finished(aborted)
    {
      ghost var s := View();
      var j, end := LoadAndRun(script, at, hasKey);
      if end == Returned(true) { return j, true, false; }
      ghost var t := View();
      next, threw := RecordOrClarify(script, j, end.Threw?);
      DuringTurnCompose(s, t, View(), script, at, j, next);
      aborted := false;
    }

    // ---------------------------------------------------------- the drain loop

    /** Take the next batch and put it in flight. */
    method BeginPass() returns (batch: seq<Message>)
      requires Valid() && drain.AtHead? && queue != []
      modifies this
      ensures Valid() && View() == Apply(old(View()), Head) && drain.InTurn? && batch == drain.turn.batch
      ensures history == old(history) + [Head]
    {
      ghost var s := View();
      batch := PutInFlight();
      Log(s, Head);
    }

    method PutInFlight() returns (batch: seq<Message>)
      requires queue != []
      modifies this
      ensures View() == ApplyHead(old(View())) && drain.InTurn? && batch == drain.turn.batch && history == old(history)
    {
      BatchShape(queue);
      batch := TakeBatch();
      var interruptible := !batch[0].tapBack && interrupts < MAX_COALESCE_INTERRUPTS;
      inflight := Some(Inflight(false, false, interruptible));
      drain, owed := InTurn(Turn(batch, Loading, false, 0, 0)), [];
    }

    /** The turn is over: re-queue an aborted batch in front, or count it as done. */
    method EndPass(batch: seq<Message>, aborted: bool)
      requires Valid() && drain.InTurn? && drain.turn.batch == batch && drain.turn.stage == Finished(aborted)
      modifies this
      ensures Valid() && View() == Apply(old(View()), Finish) && history == old(history) + [Finish]
      ensures if aborted then queue == batch + old(queue) && completed == old(completed) && interrupts == old(interrupts) + 1
              else queue == old(queue) && completed == old(completed) + [batch] && interrupts == 0
      ensures drain.AtHead? && inflight.None?
    {
      ghost var s := View();
      RequeueOrComplete(batch, aborted);
      Log(s, Finish);
    }

    method RequeueOrComplete(batch: seq<Message>, aborted: bool)
      requires drain.InTurn? && drain.turn.batch == batch && drain.turn.stage == Finished(aborted)
      modifies this
      ensures View() == ApplyFinish(old(View())) && history == old(history)
    {
      ghost var s := View();
      inflight := None;
      if aborted {
        interrupts := interrupts + 1;
        queue := batch + queue;
        owed := batch;
      } else {
        interrupts := 0;
        completed := completed + [batch];
      }
      attempts, drain := ApplyFinish(s).attempts, AtHead;
    }

    /** The drain's own catch branch: apologise for a turn that threw. */
    method Apologise(script: seq<Event>, at: nat) returns (next: nat)
      requires Valid() && at <= |script| && drain.InTurn? && drain.turn.stage.Apologising?
      modifies this
      ensures Valid() && at <= next <= |script| && DuringTurn(old(View()), View(), ArrivalsIn(script, at, next))
      ensures old(history) <= history
      ensures drain.turn.stage == Finished(false)
    {
      var settled;
      next, settled := Await(script, at);
      Resume(View(), ApologySent);
    }

    /** The turn of a pass, with the drain's catch branch around it. */
    method GuardedTurn(script: seq<Event>, at: nat, hasKey: bool) returns (next: nat, aborted: bool)
      requires Valid() && at <= |script| && drain.InTurn? && drain.turn.stage.Loading?
      requires !drain.turn.sawMessageUser
      modifies this
      ensures Valid() && at <= next <= |script| && DuringTurn(old(View()), View(), ArrivalsIn(script, at, next))
      ensures old(history) <= history
      ensures drain.turn.stage == Finished(aborted)
    {
      ghost var s := View();
      var threw;
      next, aborted, threw := RunUserTurn(script, at, hasKey);
      if threw {
        ghost var t, mid := View(), next;
        next := Apologise(script, next);
        DuringTurnCompose(s, t, View(), script, at, mid, next);
        aborted := false;
      }
    }

    /** One pass of the drain loop over a non-empty queue. */
    method OnePass(script: seq<Event>, at: nat, hasKey: bool) returns (next: nat, aborted: bool)
      requires Valid() && at <= |script| && drain.AtHead? && queue != []
      modifies this
      ensures Valid() && drain.AtHead? && at <= next <= |script|
      ensures arrived == old(arrived) + ArrivalsIn(script, at, next)
      ensures old(completed) <= completed && old(history) <= history && live == old(live)
      ensures ArrivalsIn(script, at, next) == [] ==> |queue| < |old(queue)| && !aborted
      ensures
        var batch := old(queue)[..BatchLength(old(queue))];
        if aborted then batch <= queue && completed == old(completed) && interrupts == old(interrupts) + 1
        else completed == old(completed) + [batch] && interrupts == 0
    {
      hide Inv, Reached;
      ghost var s := View();
      var batch := BeginPass();
      ghost var t := View();
      next, aborted := GuardedTurn(script, at, hasKey);
      PassShrinks(s, t, View(), ArrivalsIn(script, at, next));
      EndPass(batch, aborted);
    }

    /** The queue is empty: give the drain slot back. */
    method TearDown()
      requires Valid() && drain.AtHead? && queue == []
      modifies this
      ensures Valid() && View() == Apply(old(View()), Head) && history == old(history) + [Head]
      ensures chain == old(chain)
      ensures drain.Idle? && !drainActive && queue == []
      ensures Flatten(completed) == arrived && arrived == old(arrived) && completed == old(completed)
    {
      hide Reached;
      ReachedNext(history, View(), Head);
      history := history + [Head];
      drainActive := false;
      drain, live := Idle, None;
    }

    /** A drain between two passes, up to `next` in its script. */
    ghost predicate Draining(start: seq<Message>, done: seq<seq<Message>>, since: seq<Step>, job: Option<nat>,
                             script: seq<Event>, next: nat)
      reads this
    {
      && Valid() && drain.AtHead? && next <= |script| && live == job
      && arrived == start + ArrivalsIn(script, 0, next)
      && done <= completed && since <= history
    }

    /**
     * Drain the account's queue until it is empty. Whatever arrives meanwhile, and
     * however the turns end, the loop terminates, gives the slot back, and every text
     * that arrived has been completed exactly once and in order.
     */
    method DrainUserQueue(script: seq<Event>, hasKey: bool) returns (next: nat)
      requires Valid() && drain.AtHead? && interrupts == 0
      modifies this
      ensures Valid() && drain.Idle? && !drainActive && queue == [] && next <= |script|
      ensures arrived == old(arrived) + ArrivalsIn(script, 0, next)
      ensures Flatten(completed) == arrived && old(completed) <= completed && old(history) <= history
      ensures live.None? && old(live).Some? && IsRunning(old(live).value)
    {
      hide Inv, Reached;
      next := 0;
      ghost var start, done, since, job := arrived, completed, history, live;
      while queue != []
        invariant Draining(start, done, since, job, script, next)
        decreases |ArrivalsIn(script, next, |script|)|, |queue|
      {
        ghost var middle, before := arrived, next;
        var aborted;
        next, aborted := OnePass(script, next, hasKey);
        ArrivedOn(start, middle, arrived, script, before, next);
      }
      LiveJobRuns(View());
      TearDown();
    }

    // ---------------------------------------------------------- the drain's job on the chain

    predicate IsRunning(job: nat)
      reads this
    {
      job < |chain.jobs| && chain.jobs[job].phase.Running?
    }

    /** A chained call begins; if it is the live drain's, the drain comes to its loop. */
    method StartChained(job: nat)
      requires Valid() && CanStart(chain, job)
      modifies this
      ensures Valid() && View() == Apply(old(View()), StartJob(job)) && history == old(history) + [StartJob(job)]
    {
      ghost var s := View();
      chain := chain.(jobs := chain.jobs[job := chain.jobs[job].(phase := Running)]);
      if live == Some(job) { drain := AtHead; }
      Log(s, StartJob(job));
    }

    /** A chained call that is no live drain's settles, and the next one may start. */
    method SettleChained(job: nat)
      requires Valid() && IsRunning(job) && live != Some(job)
      modifies this
      ensures Valid() && View() == Apply(old(View()), SettleJob(job)) && history == old(history) + [SettleJob(job)]
      ensures job + 1 < |chain.jobs| ==> CanStart(chain, job + 1)
    {
      ghost var s := View();
      SettleKeepsOrder(chain, job);
      chain := chain.(jobs := chain.jobs[job := chain.jobs[job].(phase := Settled)]);
      Log(s, SettleJob(job));
    }

    /**
     * The whole call of a scheduled drain, from its turn in the chain to its clean-up:
     * the loop, the settling, and the map entry dropped if nothing is chained behind it.
     */
    method RunDrainJob(job: nat, script: seq<Event>, hasKey: bool) returns (next: nat)
      requires Valid() && drain.Scheduled? && live == Some(job) && CanStart(chain, job)
      modifies this
      ensures Valid() && drain.Idle? && !drainActive && queue == [] && next <= |script|
      ensures arrived == old(arrived) + ArrivalsIn(script, 0, next)
      ensures Flatten(completed) == arrived && old(completed) <= completed && old(history) <= history
      ensures job < |chain.jobs| && chain.jobs[job].phase.Settled? && chain.entry != Some(job)
    {
      hide Reached, ArrivalsIn, BatchLength, Flatten, Ledger, TurnInv;
      StartChained(job);
      next := DrainUserQueue(script, hasKey);
      SettleChained(job);
      CollectEntry(job);
    }
  }
}
