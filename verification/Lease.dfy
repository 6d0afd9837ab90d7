/**
 * The cross-machine lease: one row per account, stolen once it has expired and
 * deleted by its owner. Times are milliseconds on the database clock.
 */
module Lease {
  import opened Common

  const LEASE_TTL_MS: int := 120_000
  const ACQUIRE_TIMEOUT_MS: int := 130_000
  const RETRY_MS: int := 200

  datatype Row = Row(owner: nat, expiresAt: int)

  /** The row, the clock, who believes to hold which lease, and which tokens have been stored. */
  datatype Table = Table(now: int, row: Option<Row>, held: map<nat, int>, stored: set<nat>)

  /** `at` is the statement's own now(), which may lag the clock; replies and deletes may be lost. */
  datatype Step =
    | Pass(ms: nat)
    | Acquire(token: nat, at: int, replyLost: bool)
    | Release(token: nat, deleteLost: bool)

  /** Does the guarded upsert apply: no row, or a row that has expired? */
  predicate Free(row: Option<Row>, at: int) {
    row.None? || row.value.expiresAt < at
  }

  /** Tokens are fresh per call, and a call stops polling once its upsert applied. */
  predicate Enabled(t: Table, step: Step) {
    match step
    case Pass(_) => true
    case Acquire(token, at, _) => at <= t.now && token !in t.stored
    case Release(token, _) => token in t.held
  }

  function Apply(t: Table, step: Step): Table
    requires Enabled(t, step)
  {
    match step
    case Pass(ms) => t.(now := t.now + ms)
    case Acquire(token, at, replyLost) =>
      if !Free(t.row, at) then t
      else t.(row := Some(Row(token, at + LEASE_TTL_MS)),
              held := if replyLost then t.held else t.held[token := at + LEASE_TTL_MS],
              stored := t.stored + {token})
    case Release(token, deleteLost) =>
      t.(held := t.held - {token},
         row := if !deleteLost && t.row.Some? && t.row.value.owner == token then None else t.row)
  }

  /** An unexpired lease that was acquired and not released is the row itself. */
  ghost predicate Inv(t: Table) {
    && t.held.Keys <= t.stored
    && (t.row.Some? ==> t.row.value.owner in t.stored)
    && (t.row.Some? && t.row.value.owner in t.held ==> t.held[t.row.value.owner] == t.row.value.expiresAt)
    && (forall token :: token in t.held && t.now <= t.held[token] ==> t.row == Some(Row(token, t.held[token])))
  }

  lemma InvKept(t: Table, step: Step)
    requires Inv(t) && Enabled(t, step)
    ensures Inv(Apply(t, step))
  {
    match step {
      case Acquire(token, at, replyLost) =>
        if Free(t.row, at) {
          assert forall other :: other in t.held ==> t.held[other] < t.now;
        }
      case _ =>
    }
  }

  function Exec(t: Table, steps: seq<Step>): Option<Table> {
    if steps == [] then Some(t)
    else
      match Exec(t, steps[..|steps| - 1])
      case None => None
      case Some(u) => if Enabled(u, steps[|steps| - 1]) then Some(Apply(u, steps[|steps| - 1])) else None
  }

  lemma {:induction false} RunsKeepInv(t: Table, steps: seq<Step>)
    requires Inv(t)
    ensures Exec(t, steps).Some? ==> Inv(Exec(t, steps).value)
  {
    if steps != [] {
      RunsKeepInv(t, steps[..|steps| - 1]);
      if Exec(t, steps).Some? {
        InvKept(Exec(t, steps[..|steps| - 1]).value, steps[|steps| - 1]);
      }
    }
  }

  /** At any database time at most one machine holds an unexpired lease it acquired. */
  lemma MutualExclusion(start: int, steps: seq<Step>, a: nat, b: nat)
    requires Exec(Table(start, None, map[], {}), steps).Some?
    ensures
      var t := Exec(Table(start, None, map[], {}), steps).value;
      && (a in t.held && b in t.held && t.now <= t.held[a] && t.now <= t.held[b] ==> a == b)
      && (a in t.held && t.now <= t.held[a] ==> !Free(t.row, t.now))
  {
    RunsKeepInv(Table(start, None, map[], {}), steps);
  }

  /** A release never removes another machine's row, and removes its own when the delete lands. */
  lemma ReleaseOnlyOwn(t: Table, token: nat, deleteLost: bool)
    requires Inv(t) && Enabled(t, Release(token, deleteLost))
    ensures
      var u := Apply(t, Release(token, deleteLost));
      && (t.row.Some? && t.row.value.owner != token ==> u.row == t.row)
      && (!deleteLost ==> u.row.None? || u.row.value.owner != token)
      && (forall other :: other != token && other in t.held && t.now <= t.held[other] ==>
            other in u.held && u.row == Some(Row(other, u.held[other])))
  {
  }

  /** The row as the polling code sees it. */
  class LeaseRow {
    var row: Option<Row>

    /** The guarded upsert: true when a row came back, i.e. the token now owns the lease. */
    method Upsert(token: nat, at: int) returns (owned: bool)
      modifies this
      ensures owned == Free(old(row), at)
      ensures row == if owned then Some(Row(token, at + LEASE_TTL_MS)) else old(row)
    {
      owned := row.None? || row.value.expiresAt < at;
      if owned { row := Some(Row(token, at + LEASE_TTL_MS)); }
    }

    /** DELETE ... WHERE owner = token */
    method Delete(token: nat)
      modifies this
      ensures row == if old(row).Some? && old(row).value.owner == token then None else old(row)
    {
      if row.Some? && row.value.owner == token { row := None; }
    }

    /**
     * The polling loop of a waiter that nobody else contends with. Poll i reaches the
     * database `before(i)` ms after it is due and its answer is back `after(i)` ms later;
     * `errs(i)` says the query throws, `stored(i)` that the upsert ran all the same, as
     * when only its answer is lost.
     *
     * Behind a crashed holder, whose lease cannot outlive one TTL from now, a waiter
     * whose queries succeed within `latency` acquires at most one retry and two query
     * latencies after the dead lease lapses. That is inside its window of 130 s as long
     * as one retry and two latencies fit between TTL and window. Without that it may be
     * late, but it still acquires while a latency is below the ten seconds between them.
     */
    method AcquireLease(token: nat, start: int, before: nat -> nat, after: nat -> nat, errs: nat -> bool,
                        stored: nat -> bool, ghost latency: nat)
      returns (held: bool, finish: int, polls: nat)
      modifies this
      ensures start <= finish && polls > 0
      ensures held ==>
        && row.Some? && row.value.owner == token
        && var at := row.value.expiresAt - LEASE_TTL_MS; Free(old(row), at) && start <= at <= finish
      ensures !held && !(errs(polls - 1) && stored(polls - 1)) ==> row == old(row)
      ensures !held && row != old(row) ==>
        && row.Some? && row.value.owner == token
        && var at := row.value.expiresAt - LEASE_TTL_MS; Free(old(row), at) && start <= at <= finish
      ensures !held ==> finish >= start + ACQUIRE_TIMEOUT_MS || errs(polls - 1)
      ensures forall i: nat :: i + 1 < polls ==> !errs(i)
      ensures
        && old(row.Some? ==> row.value.expiresAt <= start + LEASE_TTL_MS)
        && latency < ACQUIRE_TIMEOUT_MS - LEASE_TTL_MS
        && (forall i: nat :: before(i) + after(i) <= latency && !errs(i)) ==>
          && held && row.Some? && row.value.owner == token
          && finish <= start + LEASE_TTL_MS + RETRY_MS + 2 * latency
          && (2 * latency + RETRY_MS <= ACQUIRE_TIMEOUT_MS - LEASE_TTL_MS ==> finish <= start + ACQUIRE_TIMEOUT_MS)
          && (old(row).None? ==> finish <= start + latency)
    {
      var deadline := start + ACQUIRE_TIMEOUT_MS;
      var now, i := start, 0;
      ghost var prompt :=
        && (row.Some? ==> row.value.expiresAt <= start + LEASE_TTL_MS)
        && latency < ACQUIRE_TIMEOUT_MS - LEASE_TTL_MS
        && (forall i: nat :: before(i) + after(i) <= latency && !errs(i));
      while true
        invariant start <= now && row == old(row)
        invariant i == 0 ==> now == start
        invariant forall j: nat :: j < i ==> !errs(j)
        invariant prompt && i > 0 ==> row.Some? && now <= start + LEASE_TTL_MS + latency + RETRY_MS
        decreases deadline - now
      {
        var at := now + before(i);
        if errs(i) {
          if stored(i) { var _ := Upsert(token, at); }
          return false, at + after(i), i + 1;
        }
        var owned := Upsert(token, at);
        now := at + after(i);
        if owned { return true, now, i + 1; }
        if now >= deadline { return false, now, i + 1; }
        now := now + RETRY_MS;
        i := i + 1;
      }
    }

    /**
     * A turn under the lease. While it runs, the row may become anything (`meanwhile`):
     * the lease may lapse and be stolen. Releasing removes the row only if it is still the
     * turn's own, and only a turn that acquired it releases at all; a turn that went on
     * without the lease leaves every row alone.
     */
    method WithAccountLease(token: nat, start: int, before: nat -> nat, after: nat -> nat, errs: nat -> bool,
                            stored: nat -> bool, meanwhile: Option<Row>, deleteLost: bool)
      returns (held: bool)
      modifies this
      ensures !held || deleteLost ==> row == meanwhile
      ensures meanwhile.Some? && meanwhile.value.owner != token ==> row == meanwhile
      ensures held && !deleteLost ==> row.None? || row.value.owner != token
    {
      var finish, polls;
      held, finish, polls := AcquireLease(token, start, before, after, errs, stored, 0);
      row := meanwhile;
      if held && !deleteLost { Delete(token); }
    }
  }
}
