/**
 * The retrying outbox: rows in a file, posted oldest first, dropped on success or
 * poison, rescheduled with backoff otherwise, and cleared when the token is dead.
 */
module Outbox {
  import opened Common

  const BACKOFF_BASE_MS: nat := 1_000
  const BACKOFF_CAP_MS: nat := 300_000

  datatype Row<+P> = Row(id: nat, payload: P, nextAttemptAt: int, attemptCount: nat)

  /** A classified answer to one post. A retry may hide a post the server did store. */
  datatype Reply = Success | Poison | Halt | Retry(stored: bool, jitter: nat)

  /** What became of a row during one drain. */
  datatype Fate = Delivered | Poisoned | Rescheduled(stored: bool, jitter: nat) | Waiting

  function Exponential(attempt: nat): nat {
    if attempt == 0 then BACKOFF_BASE_MS else 2 * Exponential(attempt - 1)
  }

  /** min(2^attempt s, 5 min), plus jitter. */
  function Backoff(attempt: nat, jitter: nat): nat {
    (if attempt > 30 || Exponential(attempt) > BACKOFF_CAP_MS then BACKOFF_CAP_MS else Exponential(attempt)) + jitter
  }

  /** A row as it is written back after a failed post. */
  function Reschedule<P>(row: Row<P>, now: int, jitter: nat): Row<P> {
    row.(attemptCount := row.attemptCount + 1, nextAttemptAt := now + Backoff(row.attemptCount + 1, jitter))
  }

  /** What is written back for a row. */
  function AfterFate<P>(row: Row<P>, fate: Fate, now: int): seq<Row<P>> {
    match fate
    case Waiting => [row]
    case Rescheduled(_, jitter) => [Reschedule(row, now, jitter)]
    case _ => []
  }

  /** The rows still queued after the first n fates have befallen the first n rows. */
  function Survivors<P>(rows: seq<Row<P>>, fates: seq<Fate>, n: nat, now: int): seq<Row<P>>
    requires n <= |rows| && n <= |fates|
  {
    if n == 0 then [] else Survivors(rows, fates, n - 1, now) + AfterFate(rows[n - 1], fates[n - 1], now)
  }

  /** How many of the first n rows were posted. */
  function Posts(fates: seq<Fate>, n: nat): nat
    requires n <= |fates|
  {
    if n == 0 then 0 else Posts(fates, n - 1) + if fates[n - 1].Waiting? then 0 else 1
  }

  function Deliveries(fates: seq<Fate>, n: nat): nat
    requires n <= |fates|
  {
    if n == 0 then 0 else Deliveries(fates, n - 1) + if fates[n - 1].Delivered? then 1 else 0
  }

  function FateOf(reply: Reply): Fate {
    match reply
    case Success => Delivered
    case Poison => Poisoned
    case Halt => Waiting
    case Retry(stored, jitter) => Rescheduled(stored, jitter)
  }

  /** Is a row eligible: due, within the post limit, and not held back by a shutdown? */
  predicate Eligible<P>(row: Row<P>, now: int, posted: nat, limit: Option<nat>, stopping: bool) {
    !stopping && row.nextAttemptAt <= now && (limit.Some? ==> posted < limit.value)
  }

  /**
   * The fates of a drain, in terms of the answers alone: exactly the eligible rows are
   * posted, the k-th post meets the k-th answer, and an ineligible row just waits.
   */
  ghost predicate Drained<P>(rows: seq<Row<P>>, fates: seq<Fate>, now: int, limit: Option<nat>,
                             post: nat -> Reply, stopping: nat -> bool)
  {
    && |fates| <= |rows|
    && forall k: nat :: k < |fates| ==> FateFits(rows[k], fates, k, now, limit, post, stopping)
  }

  ghost predicate FateFits<P>(row: Row<P>, fates: seq<Fate>, k: nat, now: int, limit: Option<nat>,
                              post: nat -> Reply, stopping: nat -> bool)
    requires k < |fates|
  {
    var posted := Posts(fates, k);
    if Eligible(row, now, posted, limit, stopping(k))
    then !post(posted).Halt? && fates[k] == FateOf(post(posted))
    else fates[k].Waiting?
  }

  // ------------------------------------------------------------ the drain, by its answers

  /** How many of the first n rows are posted: each one that is eligible when its turn comes. */
  function Posted<P>(rows: seq<Row<P>>, n: nat, now: int, limit: Option<nat>, stopping: nat -> bool): nat
    requires n <= |rows|
  {
    if n == 0 then 0
    else
      var posted := Posted(rows, n - 1, now, limit, stopping);
      if Eligible(rows[n - 1], now, posted, limit, stopping(n - 1)) then posted + 1 else posted
  }

  /** How many of the first n answers are successes. */
  function Successes(post: nat -> Reply, n: nat): nat {
    if n == 0 then 0 else Successes(post, n - 1) + if post(n - 1).Success? then 1 else 0
  }

  ghost predicate Finishes(reply: Reply) {
    reply.Success? || reply.Poison?
  }

  /** A row put back after a failed post: the same row, with one attempt more and a later time. */
  ghost predicate PutBack<P>(row: Row<P>, back: Row<P>, jitter: nat, now: int) {
    && back.id == row.id && back.payload == row.payload && back.attemptCount == row.attemptCount + 1
    && now + BACKOFF_BASE_MS + jitter <= back.nextAttemptAt <= now + BACKOFF_CAP_MS + jitter
  }

  /** What is written back for one row, by the answer to its own post. */
  ghost predicate Answered<P>(row: Row<P>, back: seq<Row<P>>, eligible: bool, reply: Reply, now: int) {
    if !eligible then back == [row]
    else if Finishes(reply) then back == []
    else |back| == 1 && (reply.Retry? ==> PutBack(row, back[0], reply.jitter, now))
  }

  ghost predicate AnsweredAt<P>(rows: seq<Row<P>>, k: nat, back: seq<Row<P>>, now: int, limit: Option<nat>,
                                post: nat -> Reply, stopping: nat -> bool)
    requires k < |rows|
  {
    var posted := Posted(rows, k, now, limit, stopping);
    Answered(rows[k], back, Eligible(rows[k], now, posted, limit, stopping(k)), post(posted), now)
  }

  /** The file written back holds, in order, what each row's own answer leaves of it. */
  ghost predicate LeftByAnswers<P(!new)>(rows: seq<Row<P>>, survivors: seq<Row<P>>, now: int, limit: Option<nat>,
                                   post: nat -> Reply, stopping: nat -> bool)
  {
    exists backs: seq<seq<Row<P>>> ::
      && survivors == Flatten(backs) && |backs| == |rows|
      && forall k: nat :: k < |rows| ==> AnsweredAt(rows, k, backs[k], now, limit, post, stopping)
  }

  ghost predicate NoHalt(post: nat -> Reply, n: nat) {
    forall k: nat :: k < n ==> !post(k).Halt?
  }

  lemma {:induction false} HaltEndsDrain<P>(rows: seq<Row<P>>, fates: seq<Fate>, n: nat, now: int, limit: Option<nat>,
                                            post: nat -> Reply, stopping: nat -> bool)
    requires Drained(rows, fates, now, limit, post, stopping) && n <= |fates|
    ensures NoHalt(post, Posted(rows, n, now, limit, stopping))
  {
    if n > 0 {
      HaltEndsDrain(rows, fates, n - 1, now, limit, post, stopping);
      PostsAreEligible(rows, fates, n - 1, now, limit, post, stopping);
      assert FateFits(rows[n - 1], fates, n - 1, now, limit, post, stopping);
    }
  }

  lemma {:induction false} PostsAreEligible<P>(rows: seq<Row<P>>, fates: seq<Fate>, n: nat, now: int, limit: Option<nat>,
                                               post: nat -> Reply, stopping: nat -> bool)
    requires Drained(rows, fates, now, limit, post, stopping) && n <= |fates|
    ensures Posts(fates, n) == Posted(rows, n, now, limit, stopping)
    ensures Deliveries(fates, n) == Successes(post, Posted(rows, n, now, limit, stopping))
  {
    if n > 0 {
      PostsAreEligible(rows, fates, n - 1, now, limit, post, stopping);
      assert FateFits(rows[n - 1], fates, n - 1, now, limit, post, stopping);
    }
  }

  ghost function Backs<P>(rows: seq<Row<P>>, fates: seq<Fate>, n: nat, now: int): (backs: seq<seq<Row<P>>>)
    requires n <= |rows| && n <= |fates|
    ensures |backs| == n && forall k :: 0 <= k < n ==> backs[k] == AfterFate(rows[k], fates[k], now)
  {
    if n == 0 then [] else Backs(rows, fates, n - 1, now) + [AfterFate(rows[n - 1], fates[n - 1], now)]
  }

  lemma {:induction false} SurvivorsAreBacks<P>(rows: seq<Row<P>>, fates: seq<Fate>, n: nat, now: int)
    requires n <= |rows| && n <= |fates|
    ensures Survivors(rows, fates, n, now) == Flatten(Backs(rows, fates, n, now))
  {
    if n > 0 {
      SurvivorsAreBacks(rows, fates, n - 1, now);
      FlattenSnoc(Backs(rows, fates, n - 1, now), AfterFate(rows[n - 1], fates[n - 1], now));
    }
  }

  lemma FateAnswers<P>(rows: seq<Row<P>>, fates: seq<Fate>, k: nat, now: int, limit: Option<nat>,
                       post: nat -> Reply, stopping: nat -> bool)
    requires Drained(rows, fates, now, limit, post, stopping) && k < |fates|
    ensures AnsweredAt(rows, k, AfterFate(rows[k], fates[k], now), now, limit, post, stopping)
  {
    PostsAreEligible(rows, fates, k, now, limit, post, stopping);
    assert FateFits(rows[k], fates, k, now, limit, post, stopping);
    if fates[k].Rescheduled? { BackoffBounds(rows[k].attemptCount + 1, fates[k].jitter); }
  }

  /** What a drain that was not halted leaves in the file follows from the answers alone. */
  lemma {:induction false} DrainByAnswers<P(!new)>(rows: seq<Row<P>>, fates: seq<Fate>, now: int, limit: Option<nat>,
                                             post: nat -> Reply, stopping: nat -> bool)
    requires Drained(rows, fates, now, limit, post, stopping) && |fates| == |rows|
    ensures LeftByAnswers(rows, Survivors(rows, fates, |rows|, now), now, limit, post, stopping)
  {
    var backs := Backs(rows, fates, |rows|, now);
    SurvivorsAreBacks(rows, fates, |rows|, now);
    hide AnsweredAt, Drained, Survivors, AfterFate;
    forall k: nat | k < |rows| ensures AnsweredAt(rows, k, backs[k], now, limit, post, stopping) {
      FateAnswers(rows, fates, k, now, limit, post, stopping);
    }
  }

  lemma {:induction false} FlattenHas<T>(batches: seq<seq<T>>, k: nat, x: T)
    requires k < |batches| && x in batches[k]
    ensures x in Flatten(batches)
  {
    if k < |batches| - 1 { FlattenHas(batches[..|batches| - 1], k, x); }
  }

  lemma {:induction false} FlattenFrom<T>(batches: seq<seq<T>>, x: T) returns (k: nat)
    requires x in Flatten(batches)
    ensures k < |batches| && x in batches[k]
  {
    var n := |batches| - 1;
    if x in batches[n] { k := n; } else { k := FlattenFrom(batches[..n], x); }
  }

  lemma {:induction false} PostedGrows<P>(rows: seq<Row<P>>, m: nat, n: nat, now: int, limit: Option<nat>,
                                          stopping: nat -> bool)
    requires m <= n <= |rows|
    ensures Posted(rows, m, now, limit, stopping) <= Posted(rows, n, now, limit, stopping)
  {
    if m < n { PostedGrows(rows, m, n - 1, now, limit, stopping); }
  }

  lemma OwnAnswerIsNoHalt<P>(rows: seq<Row<P>>, k: nat, now: int, limit: Option<nat>, post: nat -> Reply, stopping: nat -> bool)
    requires k < |rows| && NoHalt(post, Posted(rows, |rows|, now, limit, stopping))
    ensures
      var posted := Posted(rows, k, now, limit, stopping);
      Eligible(rows[k], now, posted, limit, stopping(k)) ==> !post(posted).Halt?
  {
    PostedGrows(rows, k + 1, |rows|, now, limit, stopping);
  }

  lemma BackHasItsId<P>(rows: seq<Row<P>>, k: nat, back: seq<Row<P>>, now: int, limit: Option<nat>,
                        post: nat -> Reply, stopping: nat -> bool)
    requires k < |rows| && AnsweredAt(rows, k, back, now, limit, post, stopping)
    requires NoHalt(post, Posted(rows, |rows|, now, limit, stopping))
    ensures forall row :: row in back ==> row.id == rows[k].id
  {
    OwnAnswerIsNoHalt(rows, k, now, limit, post, stopping);
  }

  /**
   * With distinct ids, a row leaves the file exactly if it was posted and its own answer
   * was a success or poison. A row whose answer was a retry is put back, the rest waits.
   */
  lemma {:induction false} RowLeavesExactly<P(!new)>(rows: seq<Row<P>>, survivors: seq<Row<P>>, now: int, limit: Option<nat>,
                                               post: nat -> Reply, stopping: nat -> bool, k: nat)
    requires LeftByAnswers(rows, survivors, now, limit, post, stopping) && k < |rows|
    requires forall i, j :: 0 <= i < j < |rows| ==> rows[i].id != rows[j].id
    requires NoHalt(post, Posted(rows, |rows|, now, limit, stopping))
    ensures
      var posted := Posted(rows, k, now, limit, stopping);
      var eligible := Eligible(rows[k], now, posted, limit, stopping(k));
      && ((forall back :: back in survivors ==> back.id != rows[k].id) <==> eligible && Finishes(post(posted)))
      && (!eligible ==> rows[k] in survivors)
      && (eligible && post(posted).Retry? ==>
            exists back :: back in survivors && PutBack(rows[k], back, post(posted).jitter, now))
  {
    hide Posted, NoHalt, Flatten;
    var backs: seq<seq<Row<P>>> :|
      && survivors == Flatten(backs) && |backs| == |rows|
      && forall i: nat :: i < |rows| ==> AnsweredAt(rows, i, backs[i], now, limit, post, stopping);
    var posted := Posted(rows, k, now, limit, stopping);
    assert AnsweredAt(rows, k, backs[k], now, limit, post, stopping);
    OwnAnswerIsNoHalt(rows, k, now, limit, post, stopping);
    if backs[k] != [] {
      FlattenHas(backs, k, backs[k][0]);
    } else {
      forall back | back in survivors ensures back.id != rows[k].id {
        var i := FlattenFrom(backs, back);
        assert AnsweredAt(rows, i, backs[i], now, limit, post, stopping);
        BackHasItsId(rows, i, backs[i], now, limit, post, stopping);
      }
    }
  }

  // ------------------------------------------------------------ the drain itself

  /** One row of a drain: post it if it is eligible, and say what is written back for it. */
  method PostIfEligible<P>(row: Row<P>, now: int, posted: nat, limit: Option<nat>, post: nat -> Reply, stopping: bool)
    returns (halt: bool, fate: Fate, back: seq<Row<P>>)
    ensures halt == (Eligible(row, now, posted, limit, stopping) && post(posted).Halt?)
    ensures !halt ==> fate == if Eligible(row, now, posted, limit, stopping) then FateOf(post(posted)) else Waiting
    ensures !halt ==> back == AfterFate(row, fate, now)
  {
    if stopping || row.nextAttemptAt > now || (limit.Some? && posted >= limit.value) {
      return false, Waiting, [row];
    }
    match post(posted) {
      case Success => return false, Delivered, [];
      case Poison => return false, Poisoned, [];
      case Halt => return true, Waiting, [];
      case Retry(stored, jitter) => return false, Rescheduled(stored, jitter), [Reschedule(row, now, jitter)];
    }
  }

  /**
   * Post every due row once, oldest first. The tap limits a drain to 32 posts and
   * leaves the rest queued on shutdown; the attention outbox has no limit.
   */
  method Drain<P(!new)>(rows: seq<Row<P>>, now: int, limit: Option<nat>, post: nat -> Reply, stopping: nat -> bool)
    returns (survivors: seq<Row<P>>, shipped: nat, halted: bool, fates: seq<Fate>)
    ensures Drained(rows, fates, now, limit, post, stopping)
    ensures !halted ==> |fates| == |rows| && survivors == Survivors(rows, fates, |rows|, now)
    ensures !halted ==> LeftByAnswers(rows, survivors, now, limit, post, stopping)
    ensures shipped == Successes(post, Posted(rows, |fates|, now, limit, stopping))
    ensures !halted ==> NoHalt(post, Posted(rows, |rows|, now, limit, stopping))
    ensures halted ==>
      && survivors == [] && |fates| < |rows| && post(Posts(fates, |fates|)).Halt?
      && Eligible(rows[|fates|], now, Posts(fates, |fates|), limit, stopping(|fates|))
  {
    survivors, shipped, fates := [], 0, [];
    var processed := 0;
    for i := 0 to |rows|
      invariant |fates| == i && processed == Posts(fates, i) && shipped == Deliveries(fates, i)
      invariant Drained(rows, fates, now, limit, post, stopping)
      invariant survivors == Survivors(rows, fates, i, now)
    {
      var halt, fate, back := PostIfEligible(rows[i], now, processed, limit, post, stopping(i));
      if halt {
        PostsAreEligible(rows, fates, i, now, limit, post, stopping);
        return [], shipped, true, fates;
      }
      PrefixSuffices(rows, fates, fate, i, now);
      DrainedSnoc(rows, fates, fate, now, limit, post, stopping);
      survivors, fates := survivors + back, fates + [fate];
      if fate.Delivered? { shipped := shipped + 1; }
      if !fate.Waiting? { processed := processed + 1; }
    }
    halted := false;
    PostsAreEligible(rows, fates, |rows|, now, limit, post, stopping);
    HaltEndsDrain(rows, fates, |rows|, now, limit, post, stopping);
    DrainByAnswers(rows, fates, now, limit, post, stopping);
  }

  /** Later fates do not matter for the rows before them. */
  lemma {:induction false} PrefixSuffices<P>(rows: seq<Row<P>>, fates: seq<Fate>, fate: Fate, n: nat, now: int)
    requires n <= |fates| && n <= |rows|
    ensures Survivors(rows, fates + [fate], n, now) == Survivors(rows, fates, n, now)
    ensures Posts(fates + [fate], n) == Posts(fates, n)
    ensures Deliveries(fates + [fate], n) == Deliveries(fates, n)
  {
    if n > 0 { PrefixSuffices(rows, fates, fate, n - 1, now); }
  }

  lemma DrainedSnoc<P>(rows: seq<Row<P>>, fates: seq<Fate>, fate: Fate, now: int, limit: Option<nat>,
                       post: nat -> Reply, stopping: nat -> bool)
    requires |fates| < |rows| && Drained(rows, fates, now, limit, post, stopping)
    requires
      var posted := Posts(fates, |fates|);
      if Eligible(rows[|fates|], now, posted, limit, stopping(|fates|))
      then !post(posted).Halt? && fate == FateOf(post(posted))
      else fate.Waiting?
    ensures Drained(rows, fates + [fate], now, limit, post, stopping)
  {
    forall k: nat | k < |fates| + 1 ensures FateFits(rows[k], fates + [fate], k, now, limit, post, stopping) {
      PrefixSuffices(rows, fates, fate, k, now);
      assert k < |fates| ==> FateFits(rows[k], fates, k, now, limit, post, stopping);
    }
  }

  /** A drain posts due rows only, and no more than the limit. */
  lemma {:induction false} OnlyDueRowsPosted<P>(rows: seq<Row<P>>, fates: seq<Fate>, n: nat, now: int,
                                                limit: Option<nat>, post: nat -> Reply, stopping: nat -> bool)
    requires Drained(rows, fates, now, limit, post, stopping) && n <= |fates|
    ensures limit.Some? ==> Posts(fates, n) <= limit.value
    ensures forall k: nat :: k < n && !fates[k].Waiting? ==> rows[k].nextAttemptAt <= now
  {
    if n > 0 {
      OnlyDueRowsPosted(rows, fates, n - 1, now, limit, post, stopping);
      assert FateFits(rows[n - 1], fates, n - 1, now, limit, post, stopping);
    }
  }

  /** And a drain that gets to a row posts it if it is due, the limit is not used up and no shutdown is on. */
  lemma PostedExactly<P>(rows: seq<Row<P>>, fates: seq<Fate>, k: nat, now: int,
                         limit: Option<nat>, post: nat -> Reply, stopping: nat -> bool)
    requires Drained(rows, fates, now, limit, post, stopping) && k < |fates|
    ensures fates[k].Waiting? <==>
      stopping(k) || now < rows[k].nextAttemptAt || (limit.Some? && limit.value <= Posts(fates, k))
  {
    assert FateFits(rows[k], fates, k, now, limit, post, stopping);
  }

  predicate Kept(fate: Fate) {
    fate.Waiting? || fate.Rescheduled?
  }

  /** Which of the first n rows survive, in order. */
  function Surviving(fates: seq<Fate>, n: nat): seq<nat>
    requires n <= |fates|
  {
    if n == 0 then [] else Surviving(fates, n - 1) + if Kept(fates[n - 1]) then [n - 1] else []
  }

  /** Exactly those that waited or were rescheduled, in ascending order. */
  lemma {:induction false} SurvivingIsExact(fates: seq<Fate>, n: nat, i: nat, j: nat, k: nat)
    requires n <= |fates|
    ensures
      var from := Surviving(fates, n);
      && (i < |from| ==> from[i] < n && Kept(fates[from[i]]))
      && (i < j < |from| ==> from[i] < from[j])
      && (k in from <==> k < n && Kept(fates[k]))
  {
    if n > 0 {
      SurvivingIsExact(fates, n - 1, i, j, k);
      SurvivingIsExact(fates, n - 1, i, i, k);
    }
  }

  /**
   * The survivors are, in the same order, exactly the rows that waited or were
   * rescheduled; a delivered or poisoned row is gone, so it is never posted again.
   */
  lemma {:induction false} SurvivorsPartition<P>(rows: seq<Row<P>>, fates: seq<Fate>, n: nat, now: int, i: nat)
    requires n <= |rows| && n <= |fates|
    ensures
      var from, out := Surviving(fates, n), Survivors(rows, fates, n, now);
      && |from| == |out|
      && (i < |from| ==> from[i] < n && AfterFate(rows[from[i]], fates[from[i]], now) == [out[i]])
  {
    if n > 0 {
      SurvivorsPartition(rows, fates, n - 1, now, i);
      var back := AfterFate(rows[n - 1], fates[n - 1], now);
      assert Kept(fates[n - 1]) ==> back == [back[0]];
    }
  }

  /** A row written back keeps its id and payload, and waits unchanged or with one more attempt. */
  lemma WrittenBackUnchanged<P>(row: Row<P>, fate: Fate, now: int, back: Row<P>)
    requires AfterFate(row, fate, now) == [back]
    ensures back.id == row.id && back.payload == row.payload
    ensures fate.Waiting? ==> back == row
    ensures !fate.Waiting? ==> back.attemptCount == row.attemptCount + 1 && back.nextAttemptAt >= now + BACKOFF_BASE_MS
  {
    assert [back][0] == AfterFate(row, fate, now)[0];
    if fate.Rescheduled? { BackoffBounds(row.attemptCount + 1, fate.jitter); }
  }

  lemma {:induction false} BackoffBounds(attempt: nat, jitter: nat)
    ensures BACKOFF_BASE_MS + jitter <= Backoff(attempt, jitter) <= BACKOFF_CAP_MS + jitter
    ensures Exponential(attempt) >= BACKOFF_BASE_MS
  {
    if attempt > 0 { BackoffBounds(attempt - 1, jitter); }
  }

  lemma CapIsReached(attempt: nat)
    requires attempt > 30
    ensures Exponential(attempt) > BACKOFF_CAP_MS
    decreases attempt
  {
    assert Exponential(3) == 8 * BACKOFF_BASE_MS;
    assert Exponential(6) == 8 * Exponential(3);
    assert Exponential(9) == 8 * Exponential(6);
    ExponentialGrows(9, attempt);
  }

  lemma {:induction false} ExponentialGrows(a: nat, b: nat)
    requires a <= b
    ensures Exponential(a) <= Exponential(b)
  {
    if a < b { ExponentialGrows(a, b - 1); }
  }

  /** The backoff starts at its base and doubles with every attempt until it meets the cap. */
  lemma BackoffDoubles(attempt: nat, jitter: nat)
    ensures Backoff(0, jitter) == BACKOFF_BASE_MS + jitter
    ensures
      var twice := 2 * (Backoff(attempt, jitter) - jitter);
      Backoff(attempt + 1, jitter) == jitter + if twice > BACKOFF_CAP_MS then BACKOFF_CAP_MS else twice
  {
    if attempt > 30 { CapIsReached(attempt); }
    CapIsReached(31);
    if attempt == 30 { ExponentialGrows(9, 30); assert Exponential(9) == 8 * Exponential(6); }
  }

  /** With distinct ids, no delivered or poisoned row's id is left in the file. */
  lemma FinishedRowsAreGone<P>(rows: seq<Row<P>>, fates: seq<Fate>, now: int, k: nat)
    requires |rows| == |fates| && k < |rows| && !Kept(fates[k])
    requires forall i, j :: 0 <= i < j < |rows| ==> rows[i].id != rows[j].id
    ensures forall row :: row in Survivors(rows, fates, |rows|, now) ==> row.id != rows[k].id
  {
    var from := Surviving(fates, |rows|);
    var out := Survivors(rows, fates, |rows|, now);
    forall i | 0 <= i < |out| ensures out[i].id != rows[k].id {
      SurvivorsPartition(rows, fates, |rows|, now, i);
      SurvivingIsExact(fates, |rows|, i, i, k);
      WrittenBackUnchanged(rows[from[i]], fates[from[i]], now, out[i]);
    }
  }

  // ------------------------------------------------------------ ordering by id

  ghost predicate Ascending<P>(rows: seq<Row<P>>) {
    forall i, j :: 0 <= i < j < |rows| ==> rows[i].id <= rows[j].id
  }

  /** Insert a later row behind every row whose id is not greater: a stable order. */
  function Insert<P>(rows: seq<Row<P>>, row: Row<P>): seq<Row<P>> {
    if rows == [] || rows[|rows| - 1].id <= row.id then rows + [row]
    else Insert(rows[..|rows| - 1], row) + [rows[|rows| - 1]]
  }

  function SortById<P>(rows: seq<Row<P>>): seq<Row<P>> {
    if rows == [] then [] else Insert(SortById(rows[..|rows| - 1]), rows[|rows| - 1])
  }

  lemma {:induction false} InsertPermutes<P>(rows: seq<Row<P>>, row: Row<P>)
    ensures multiset(Insert(rows, row)) == multiset(rows) + multiset{row}
  {
    if rows != [] && rows[|rows| - 1].id > row.id {
      var n := |rows| - 1;
      InsertPermutes(rows[..n], row);
      assert rows == rows[..n] + [rows[n]];
    }
  }

  lemma {:induction false} InsertAscends<P>(rows: seq<Row<P>>, row: Row<P>, top: nat)
    requires Ascending(rows) && row.id <= top && forall i :: 0 <= i < |rows| ==> rows[i].id <= top
    ensures Ascending(Insert(rows, row))
    ensures forall i :: 0 <= i < |Insert(rows, row)| ==> Insert(rows, row)[i].id <= top
  {
    if rows != [] && rows[|rows| - 1].id > row.id {
      InsertAscends(rows[..|rows| - 1], row, rows[|rows| - 1].id);
    }
  }

  /** Sorting permutes the rows into ascending id order. */
  lemma {:induction false} SortByIdSorts<P>(rows: seq<Row<P>>)
    ensures Ascending(SortById(rows)) && multiset(SortById(rows)) == multiset(rows)
    ensures |SortById(rows)| == |rows|
  {
    if rows != [] {
      var n := |rows| - 1;
      SortByIdSorts(rows[..n]);
      var sorted := SortById(rows[..n]);
      InsertPermutes(sorted, rows[n]);
      var top := if sorted == [] || sorted[|sorted| - 1].id < rows[n].id then rows[n].id else sorted[|sorted| - 1].id;
      InsertAscends(sorted, rows[n], top);
      assert rows == rows[..n] + [rows[n]];
    }
    assert |SortById(rows)| == |multiset(SortById(rows))|;
  }

  /** A queue already in id order is left as it is. */
  lemma {:induction false} SortedStays<P>(rows: seq<Row<P>>)
    requires Ascending(rows)
    ensures SortById(rows) == rows
  {
    if rows != [] {
      SortedStays(rows[..|rows| - 1]);
    }
  }

  // ------------------------------------------------------------ the cap

  const OUTBOX_CAP: nat := 16 * 1024 * 1024

  /** What the code measures: UTF-16 code units. */
  function Utf16Length(text: string): nat {
    if text == "" then 0
    else Utf16Length(text[..|text| - 1]) + if text[|text| - 1] as int < 0x1_0000 then 1 else 2
  }

  /** What the file system measures. */
  function Utf8Length(text: string): nat {
    if text == "" then 0
    else
      var c := text[|text| - 1] as int;
      Utf8Length(text[..|text| - 1]) + if c < 0x80 then 1 else if c < 0x800 then 2 else if c < 0x1_0000 then 3 else 4
  }

  /** The size of the rows' lines by a measure, a newline per line included. */
  function Size<P>(rows: seq<Row<P>>, text: Row<P> -> string, measure: string -> nat): nat {
    if rows == [] then 0 else measure(text(rows[0])) + 1 + Size(rows[1..], text, measure)
  }

  /** How many of the oldest rows must go for the rest to fit the cap by that measure. */
  function Excess<P>(rows: seq<Row<P>>, text: Row<P> -> string, measure: string -> nat): (k: nat)
    ensures k <= |rows|
  {
    if Size(rows, text, measure) <= OUTBOX_CAP then 0 else 1 + Excess(rows[1..], text, measure)
  }

  /** What is left fits, and one row more would not. */
  lemma {:induction false} ExcessIsLeast<P>(rows: seq<Row<P>>, text: Row<P> -> string, measure: string -> nat, j: nat)
    ensures
      var k := Excess(rows, text, measure);
      && Size(rows[k..], text, measure) <= OUTBOX_CAP
      && (j < k ==> Size(rows[j..], text, measure) > OUTBOX_CAP)
  {
    if Size(rows, text, measure) <= OUTBOX_CAP {
      assert rows[0..] == rows;
    } else {
      var k := Excess(rows, text, measure);
      ExcessIsLeast(rows[1..], text, measure, if j > 0 then j - 1 else 0);
      assert rows[1..][k - 1..] == rows[k..];
      if j > 0 && j < k { assert rows[1..][j - 1..] == rows[j..]; } else { assert rows[0..] == rows; }
    }
  }

  /**
   * Reap oldest rows: of the rows in id order, keep the longest newest part whose
   * measured size fits the cap. A file within the cap is left untouched.
   */
  method EnforceCap<P>(rows: seq<Row<P>>, fileSize: nat, text: Row<P> -> string) returns (kept: seq<Row<P>>)
    ensures fileSize <= OUTBOX_CAP ==> kept == rows
    ensures fileSize > OUTBOX_CAP ==> kept == SortById(rows)[Excess(SortById(rows), text, Utf16Length)..]
  {
    if fileSize <= OUTBOX_CAP { return rows; }
    kept := SortById(rows);
    ghost var k := 0;
    assert kept[0..] == kept;
    while kept != []
      invariant k <= |SortById(rows)| && kept == SortById(rows)[k..]
      invariant Excess(SortById(rows), text, Utf16Length) == k + Excess(kept, text, Utf16Length)
    {
      if Size(kept, text, Utf16Length) <= OUTBOX_CAP { break; }
      kept, k := kept[1..], k + 1;
    }
  }

  lemma {:induction false} Utf8AgainstUtf16(text: string)
    ensures Utf16Length(text) <= Utf8Length(text) <= 3 * Utf16Length(text)
  {
    if text != "" { Utf8AgainstUtf16(text[..|text| - 1]); }
  }

  lemma {:induction false} BytesAgainstUnits<P>(rows: seq<Row<P>>, text: Row<P> -> string)
    ensures Size(rows, text, Utf16Length) <= Size(rows, text, Utf8Length) <= 3 * Size(rows, text, Utf16Length)
  {
    if rows != [] {
      Utf8AgainstUtf16(text(rows[0]));
      BytesAgainstUnits(rows[1..], text);
    }
  }

  /**
   * The cap is about bytes, the measure counts UTF-16 units. The reaped file is within
   * the cap exactly when counting bytes would have reaped no further, and it is never
   * more than three times the cap.
   */
  lemma ReapedFileIsUnderCapExactly<P>(rows: seq<Row<P>>, text: Row<P> -> string)
    ensures
      var kept := rows[Excess(rows, text, Utf16Length)..];
      && (Size(kept, text, Utf8Length) <= OUTBOX_CAP
          <==> Excess(rows, text, Utf8Length) == Excess(rows, text, Utf16Length))
      && Size(kept, text, Utf8Length) <= 3 * OUTBOX_CAP
  {
    var units, bytes := Excess(rows, text, Utf16Length), Excess(rows, text, Utf8Length);
    ExcessIsLeast(rows, text, Utf16Length, bytes);
    ExcessIsLeast(rows, text, Utf8Length, units);
    BytesAgainstUnits(rows[units..], text);
    BytesAgainstUnits(rows[bytes..], text);
  }

  // ------------------------------------------------------------ a file over the cap

  function Decimal(n: nat): string {
    if n < 10 then [('0' as int + n) as char] else Decimal(n / 10) + [('0' as int + n % 10) as char]
  }

  function Signed(n: int): string {
    if n < 0 then "-" + Decimal(-n) else Decimal(n)
  }

  /** What a row of the attention outbox carries, as JSON: events, creation time, last error. */
  datatype Attentions = Attentions(events: string, createdAt: nat, lastError: string)

  /** JSON.stringify of such a row. */
  function RowText(row: Row<Attentions>): string {
    Opening(row.id) + row.payload.events + Closing(row)
  }

  function Opening(id: nat): string {
    "{\"id\":" + Decimal(id) + ",\"events\":"
  }

  function Closing(row: Row<Attentions>): string {
    ",\"createdAt\":" + Decimal(row.payload.createdAt) + ",\"nextAttemptAt\":" + Signed(row.nextAttemptAt)
    + ",\"attemptCount\":" + Decimal(row.attemptCount) + ",\"lastError\":" + row.payload.lastError + "}"
  }

  ghost predicate IsAscii(text: string) {
    forall i :: 0 <= i < |text| ==> text[i] as int < 0x80
  }

  lemma {:induction false} AsciiLength(text: string)
    requires IsAscii(text)
    ensures Utf16Length(text) == |text| && Utf8Length(text) == |text|
  {
    if text != "" { AsciiLength(text[..|text| - 1]); }
  }

  /** A file of ASCII rows has the same size by both measures, so it is reaped to the cap. */
  lemma {:induction false} AsciiFileIsUnderCap<P>(rows: seq<Row<P>>, text: Row<P> -> string)
    requires forall i :: 0 <= i < |rows| ==> IsAscii(text(rows[i]))
    ensures Size(rows, text, Utf8Length) == Size(rows, text, Utf16Length)
    ensures Excess(rows, text, Utf8Length) == Excess(rows, text, Utf16Length)
  {
    if rows != [] {
      AsciiLength(text(rows[0]));
      AsciiFileIsUnderCap(rows[1..], text);
    }
  }

  lemma LengthSnoc(text: string, c: char)
    ensures Utf16Length(text + [c]) == Utf16Length(text) + Utf16Length([c])
    ensures Utf8Length(text + [c]) == Utf8Length(text) + Utf8Length([c])
  {
    assert (text + [c])[..|text|] == text && [c][..0] == "";
  }

  lemma {:induction false} LengthsAdd(a: string, b: string)
    ensures Utf16Length(a + b) == Utf16Length(a) + Utf16Length(b)
    ensures Utf8Length(a + b) == Utf8Length(a) + Utf8Length(b)
  {
    if b == "" {
      assert a + b == a;
    } else {
      hide Utf16Length, Utf8Length;
      var init, last := b[..|b| - 1], b[|b| - 1];
      LengthsAdd(a, init);
      LengthSnoc(a + init, last);
      LengthSnoc(init, last);
      ConcatSnoc(a, b);
    }
  }

  lemma ConcatSnoc(a: string, b: string)
    requires b != ""
    ensures b == b[..|b| - 1] + [b[|b| - 1]] && a + b == a + b[..|b| - 1] + [b[|b| - 1]]
  {
  }

  /** A text of n letters e with an acute accent. */
  function Accents(n: nat): (text: string)
    ensures |text| == n
  {
    if n == 0 then "" else Accents(n - 1) + ['\U{00E9}']
  }

  lemma AccentLength()
    ensures Utf16Length(['\U{00E9}']) == 1 && Utf8Length(['\U{00E9}']) == 2
  {
    assert ['\U{00E9}'][..0] == "";
  }

  lemma {:induction false} AccentsLength(n: nat)
    ensures Utf16Length(Accents(n)) == n && Utf8Length(Accents(n)) == 2 * n
  {
    if n > 0 {
      hide Utf16Length, Utf8Length;
      AccentsLength(n - 1);
      AccentLength();
      LengthsAdd(Accents(n - 1), ['\U{00E9}']);
    }
  }

  /** One attention whose description is a thousand accented letters. */
  function AccentedRow(): Row<Attentions> {
    Row(1, Attentions("[{\"description\":\"" + Accents(1000) + "\"}]", 1, "\"\""), 1, 0)
  }

  function Copies<P>(n: nat, row: Row<P>): seq<Row<P>> {
    if n == 0 then [] else [row] + Copies(n - 1, row)
  }

  lemma {:induction false} SizeOfCopies<P>(n: nat, row: Row<P>, text: Row<P> -> string, measure: string -> nat)
    ensures Size(Copies(n, row), text, measure) == n * (measure(text(row)) + 1)
  {
    if n > 0 {
      SizeOfCopies(n - 1, row, text, measure);
      assert Copies(n, row)[1..] == Copies(n - 1, row);
    }
  }

  lemma AsciiEnds()
    ensures IsAscii(Opening(1)) && IsAscii("[{\"description\":\"") && IsAscii("\"}]")
    ensures |Opening(1)| == 17
  {
  }

  lemma AsciiLabels()
    ensures IsAscii(",\"createdAt\":") && |",\"createdAt\":"| == 13
    ensures IsAscii(",\"nextAttemptAt\":") && |",\"nextAttemptAt\":"| == 17
    ensures IsAscii(",\"attemptCount\":") && |",\"attemptCount\":"| == 16
    ensures IsAscii(",\"lastError\":") && |",\"lastError\":"| == 13
  {
  }

  lemma AsciiConcat(a: string, b: string)
    requires IsAscii(a) && IsAscii(b)
    ensures IsAscii(a + b)
  {
  }

  lemma AsciiClosing()
    ensures IsAscii(Closing(AccentedRow())) && |Closing(AccentedRow())| == 65
  {
    AsciiLabels();
    assert Decimal(1) == "1" && Decimal(0) == "0";
    assert IsAscii("1") && IsAscii("0") && IsAscii("\"\"") && IsAscii("}");
    hide IsAscii;
    var createdAt := ",\"createdAt\":" + Decimal(1);
    AsciiConcat(",\"createdAt\":", Decimal(1));
    AsciiConcat(createdAt, ",\"nextAttemptAt\":");
    AsciiConcat(createdAt + ",\"nextAttemptAt\":", Signed(1));
    var times := createdAt + ",\"nextAttemptAt\":" + Signed(1);
    AsciiConcat(times, ",\"attemptCount\":");
    AsciiConcat(times + ",\"attemptCount\":", Decimal(0));
    var counts := times + ",\"attemptCount\":" + Decimal(0);
    AsciiConcat(counts, ",\"lastError\":");
    AsciiConcat(counts + ",\"lastError\":", "\"\"");
    AsciiConcat(counts + ",\"lastError\":" + "\"\"", "}");
  }

  lemma AccentedRowLengths()
    ensures 1050 <= Utf16Length(RowText(AccentedRow())) <= 1117
    ensures Utf8Length(RowText(AccentedRow())) == Utf16Length(RowText(AccentedRow())) + 1000
  {
    var opening := Opening(1) + "[{\"description\":\"";
    var closing := "\"}]" + Closing(AccentedRow());
    assert RowText(AccentedRow()) == opening + Accents(1000) + closing;
    AsciiEnds();
    AsciiClosing();
    AsciiLength(opening);
    AsciiLength(closing);
    AccentsLength(1000);
    LengthsAdd(opening, Accents(1000));
    LengthsAdd(opening + Accents(1000), closing);
  }

  /**
   * A file that stays over the cap: 15,000 such rows, with one id since an id is only a
   * clock reading. By characters all fit, so none is reaped; by bytes they are too long.
   */
  lemma NonAsciiFileStaysOverCap()
    ensures
      var rows := Copies(15_000, AccentedRow());
      && Size(rows, RowText, Utf8Length) > OUTBOX_CAP
      && Excess(rows, RowText, Utf16Length) == 0
  {
    AccentedRowLengths();
    SizeOfCopies(15_000, AccentedRow(), RowText, Utf16Length);
    SizeOfCopies(15_000, AccentedRow(), RowText, Utf8Length);
  }
}
