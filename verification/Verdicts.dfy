/**
 * First-wins resolution of attentions, the blocking permission endpoint, and what the
 * user's verdict becomes on its way.
 */
module Verdicts {
  import opened Common

  datatype Behavior = Allow | Deny

  datatype Attention = Attention(account: nat, session: nat, isPermission: bool, requestId: Option<nat>, resolved: bool)

  /** A row of the session inbox: a verdict with its behavior, or a reply. */
  datatype InboxRow = InboxRow(
    account: nat, session: nat, isVerdict: bool, requestId: Option<nat>, behavior: Option<Behavior>, attention: nat)

  /** Attentions by id, and inbox rows oldest first. */
  datatype Tables = Tables(attentions: map<nat, Attention>, inbox: seq<InboxRow>)

  // ------------------------------------------------------------ the statements

  /** Does the conditional UPDATE claim the row: known, of this account, not yet resolved? */
  predicate Claims(t: Tables, account: nat, id: nat) {
    id in t.attentions && t.attentions[id].account == account && !t.attentions[id].resolved
  }

  function Consequence(a: Attention, id: nat, behavior: Option<Behavior>): InboxRow {
    if a.isPermission
    then InboxRow(a.account, a.session, true, a.requestId, Some(if behavior.Some? then behavior.value else Deny), id)
    else InboxRow(a.account, a.session, false, None, None, id)
  }

  /**
   * Does the row carry the attention's resolution? A permission's verdict allows exactly
   * on an explicit allow, so a missing behavior is a deny; anything else gets a reply.
   */
  ghost predicate Carries(row: InboxRow, a: Attention, id: nat, behavior: Option<Behavior>) {
    && row.attention == id && row.account == a.account && row.session == a.session && row.isVerdict == a.isPermission
    && (if a.isPermission
        then row.requestId == a.requestId && row.behavior.Some? && (row.behavior.value.Allow? <==> behavior == Some(Allow))
        else row.requestId.None? && row.behavior.None?)
  }

  function Resolve(t: Tables, account: nat, id: nat, behavior: Option<Behavior>): Tables {
    if !Claims(t, account, id) then t
    else
      var a := t.attentions[id];
      Tables(t.attentions[id := a.(resolved := true)], t.inbox + [Consequence(a, id, behavior)])
  }

  predicate Matches(row: InboxRow, account: nat, session: nat, requestId: nat) {
    row.isVerdict && row.account == account && row.session == session && row.requestId == Some(requestId)
  }

  /** The oldest verdict row for the request, a malformed one reading as deny. */
  function FindVerdict(inbox: seq<InboxRow>, account: nat, session: nat, requestId: nat): Option<Behavior> {
    if inbox == [] then None
    else
      var n := |inbox| - 1;
      var earlier := FindVerdict(inbox[..n], account, session, requestId);
      if earlier.Some? then earlier
      else if Matches(inbox[n], account, session, requestId)
      then Some(if inbox[n].behavior == Some(Allow) then Allow else Deny)
      else None
  }

  /** The tables as the code changes them. */
  class Database {
    var attentions: map<nat, Attention>
    var inbox: seq<InboxRow>

    ghost function View(): Tables
      reads this
    {
      Tables(attentions, inbox)
    }

    /** One transaction: claim the attention, then queue its consequence; None if nothing was claimed. */
    method ResolveAttention(account: nat, id: nat, behavior: Option<Behavior>) returns (inboxId: Option<nat>)
      modifies this
      ensures View() == Resolve(old(View()), account, id, behavior)
      ensures inboxId == if Claims(old(View()), account, id) then Some(|old(inbox)|) else None
      ensures inboxId.Some? ==>
                && id in old(attentions) && old(attentions)[id].account == account && !old(attentions)[id].resolved
                && |inbox| == |old(inbox)| + 1 && Carries(inbox[|old(inbox)|], old(attentions)[id], id, behavior)
    {
      if id !in attentions || attentions[id].account != account || attentions[id].resolved {
        return None;
      }
      var claimed := attentions[id];
      attentions := attentions[id := claimed.(resolved := true)];
      if claimed.isPermission {
        var verdict := if behavior.Some? then behavior.value else Deny;
        inbox := inbox + [InboxRow(account, claimed.session, true, claimed.requestId, Some(verdict), id)];
      } else {
        inbox := inbox + [InboxRow(account, claimed.session, false, None, None, id)];
      }
      inboxId := Some(|inbox| - 1);
    }

    method FindVerdictForRequest(account: nat, session: nat, requestId: nat) returns (behavior: Option<Behavior>)
      ensures behavior == FindVerdict(inbox, account, session, requestId)
    {
      for i := 0 to |inbox|
        invariant FindVerdict(inbox[..i], account, session, requestId).None?
      {
        assert inbox[..i + 1][..i] == inbox[..i];
        if Matches(inbox[i], account, session, requestId) {
          FindVerdictStays(inbox[..i + 1], inbox[i + 1..], account, session, requestId);
          assert inbox[..i + 1] + inbox[i + 1..] == inbox;
          return Some(if inbox[i].behavior == Some(Allow) then Allow else Deny);
        }
      }
      assert inbox[..|inbox|] == inbox;
      behavior := None;
    }
  }

  /** Rows that come later never change a verdict that is already there. */
  lemma {:induction false} FindVerdictStays(inbox: seq<InboxRow>, more: seq<InboxRow>, account: nat, session: nat, requestId: nat)
    ensures
      var found := FindVerdict(inbox, account, session, requestId);
      found.Some? ==> FindVerdict(inbox + more, account, session, requestId) == found
  {
    if more == [] {
      assert inbox + more == inbox;
    } else {
      var n := |more| - 1;
      FindVerdictStays(inbox, more[..n], account, session, requestId);
      assert (inbox + more)[..|inbox| + n] == inbox + more[..n];
    }
  }

  // ------------------------------------------------------------ the endpoint among other resolvers

  /** A blocking permission call: what it minted, and how it ended. */
  datatype Outcome = Pending | Answered(behavior: Behavior) | Failed

  datatype Call = Call(account: nat, session: nat, requestId: nat, attention: nat, outcome: Outcome)

  datatype State = State(tables: Tables, calls: seq<Call>, minted: set<nat>)

  datatype Step =
    | Surface(attention: nat, a: Attention)                            // any attention but a blocking call's
    | Open(account: nat, session: nat, requestId: nat, attention: nat) // a blocking call mints its request id
    | ResolveBy(account: nat, attention: nat, behavior: Option<Behavior>)
    | Check(call: nat)                                                 // re-query after parking or waking
    | GiveUp(call: nat, cleanupFails: bool)                            // deadline or disconnect
    | Break(call: nat)                                                 // the request errors out

  predicate IsPending(s: State, k: nat) {
    k < |s.calls| && s.calls[k].outcome.Pending?
  }

  predicate Enabled(s: State, step: Step) {
    match step
    case Surface(id, a) =>
      id !in s.tables.attentions && !a.resolved && (a.requestId.Some? ==> a.requestId.value !in s.minted)
    case Open(_, _, requestId, id) =>
      && id !in s.tables.attentions
      && requestId !in s.minted
      && forall other :: other in s.tables.attentions ==> s.tables.attentions[other].requestId != Some(requestId)
    case ResolveBy(_, _, _) => true
    case Check(k) => IsPending(s, k)
    case GiveUp(k, _) => IsPending(s, k)
    case Break(k) => IsPending(s, k)
  }

  function Answer(s: State, k: nat, outcome: Outcome): State
    requires k < |s.calls|
  {
    s.(calls := s.calls[k := s.calls[k].(outcome := outcome)])
  }

  function Apply(s: State, step: Step): State
    requires Enabled(s, step)
  {
    match step
    case Surface(id, a) => s.(tables := s.tables.(attentions := s.tables.attentions[id := a]))
    case Open(account, session, requestId, id) =>
      s.(tables := s.tables.(attentions :=
           s.tables.attentions[id := Attention(account, session, true, Some(requestId), false)]),
         calls := s.calls + [Call(account, session, requestId, id, Pending)],
         minted := s.minted + {requestId})
    case ResolveBy(account, id, behavior) => s.(tables := Resolve(s.tables, account, id, behavior))
    case Check(k) =>
      var c := s.calls[k];
      var found := FindVerdict(s.tables.inbox, c.account, c.session, c.requestId);
      if found.Some? then Answer(s, k, Answered(found.value)) else s
    case GiveUp(k, cleanupFails) =>
      var c := s.calls[k];
      var t := Answer(s, k, Answered(Deny));
      if cleanupFails then t else t.(tables := Resolve(s.tables, c.account, c.attention, Some(Deny)))
    case Break(k) => Answer(s, k, Failed)
  }

  // ------------------------------------------------------------ invariants

  /** Inbox rows and resolved attentions correspond one to one. */
  ghost predicate OneRowEach(t: Tables) {
    && (forall i, j :: 0 <= i < j < |t.inbox| ==> t.inbox[i].attention != t.inbox[j].attention)
    && (forall i :: 0 <= i < |t.inbox| ==>
          t.inbox[i].attention in t.attentions && RowOf(t.attentions[t.inbox[i].attention], t.inbox[i]))
  }

  ghost predicate RowOf(a: Attention, row: InboxRow) {
    && a.resolved && row.account == a.account && row.session == a.session
    && row.isVerdict == a.isPermission
    && (row.isVerdict ==> row.requestId == a.requestId && row.behavior.Some?)
  }

  /** A minted request id belongs to its own call's attention and to no other. */
  ghost predicate OwnRequests(s: State) {
    && (forall k :: 0 <= k < |s.calls| ==>
          var c := s.calls[k];
          && c.requestId in s.minted
          && c.attention in s.tables.attentions
          && var a := s.tables.attentions[c.attention];
             a.account == c.account && a.session == c.session && a.isPermission && a.requestId == Some(c.requestId))
    && (forall id, k :: id in s.tables.attentions && 0 <= k < |s.calls| ==>
          s.tables.attentions[id].requestId == Some(s.calls[k].requestId) ==> id == s.calls[k].attention)
  }

  /** Is there an inbox row by which the user allowed exactly this call? */
  ghost predicate AllowedByUser(s: State, c: Call) {
    exists i :: 0 <= i < |s.tables.inbox|
      && s.tables.inbox[i].attention == c.attention && s.tables.inbox[i].behavior == Some(Allow)
  }

  ghost predicate AllowsAreReal(s: State) {
    forall k :: 0 <= k < |s.calls| && s.calls[k].outcome == Answered(Allow) ==> AllowedByUser(s, s.calls[k])
  }

  ghost predicate Inv(s: State) {
    OneRowEach(s.tables) && OwnRequests(s) && AllowsAreReal(s)
  }

  const INIT: State := State(Tables(map[], []), [], {})

  lemma ResolveKeepsRows(t: Tables, account: nat, id: nat, behavior: Option<Behavior>)
    requires OneRowEach(t)
    ensures OneRowEach(Resolve(t, account, id, behavior))
  {
  }

  lemma {:induction false} VerdictIsARow(inbox: seq<InboxRow>, account: nat, session: nat, requestId: nat) returns (i: nat)
    requires FindVerdict(inbox, account, session, requestId).Some?
    ensures i < |inbox| && Matches(inbox[i], account, session, requestId)
    ensures FindVerdict(inbox, account, session, requestId) == Some(Allow) <==> inbox[i].behavior == Some(Allow)
  {
    var n := |inbox| - 1;
    if FindVerdict(inbox[..n], account, session, requestId).Some? {
      i := VerdictIsARow(inbox[..n], account, session, requestId);
    } else {
      i := n;
    }
  }

  lemma CheckFindsOwnRow(s: State, k: nat)
    requires Inv(s) && k < |s.calls|
    ensures
      var c := s.calls[k];
      FindVerdict(s.tables.inbox, c.account, c.session, c.requestId) == Some(Allow) ==> AllowedByUser(s, c)
  {
    var c := s.calls[k];
    if FindVerdict(s.tables.inbox, c.account, c.session, c.requestId) == Some(Allow) {
      var i := VerdictIsARow(s.tables.inbox, c.account, c.session, c.requestId);
      var id := s.tables.inbox[i].attention;
      assert RowOf(s.tables.attentions[id], s.tables.inbox[i]);
    }
  }

  lemma RowsOnlyGrow(s: State, step: Step)
    requires Enabled(s, step)
    ensures s.tables.inbox <= Apply(s, step).tables.inbox
  {
  }

  lemma InvKept(s: State, step: Step)
    requires Inv(s) && Enabled(s, step)
    ensures Inv(Apply(s, step))
  {
    var t := Apply(s, step);
    assert OneRowEach(t.tables) by {
      match step {
        case ResolveBy(account, id, behavior) => ResolveKeepsRows(s.tables, account, id, behavior);
        case GiveUp(k, _) => ResolveKeepsRows(s.tables, s.calls[k].account, s.calls[k].attention, Some(Deny));
        case _ =>
      }
    }
    RowsOnlyGrow(s, step);
    forall k | 0 <= k < |t.calls| && t.calls[k].outcome == Answered(Allow) ensures AllowedByUser(t, t.calls[k]) {
      if step.Check? && step.call == k { CheckFindsOwnRow(s, k); }
      assert AllowedByUser(s, s.calls[k]);
    }
  }

  // ------------------------------------------------------------ whole runs

  function Exec(s: State, steps: seq<Step>): Option<State> {
    if steps == [] then Some(s)
    else
      match Exec(s, steps[..|steps| - 1])
      case None => None
      case Some(t) => if Enabled(t, steps[|steps| - 1]) then Some(Apply(t, steps[|steps| - 1])) else None
  }

  lemma {:induction false} RunsKeepInv(s: State, steps: seq<Step>)
    requires Inv(s)
    ensures Exec(s, steps).Some? ==> Inv(Exec(s, steps).value)
    ensures Exec(s, steps).Some? ==> s.tables.inbox <= Exec(s, steps).value.tables.inbox
  {
    if steps != [] {
      RunsKeepInv(s, steps[..|steps| - 1]);
      if Exec(s, steps).Some? {
        InvKept(Exec(s, steps[..|steps| - 1]).value, steps[|steps| - 1]);
        RowsOnlyGrow(Exec(s, steps[..|steps| - 1]).value, steps[|steps| - 1]);
      }
    }
  }

  /**
   * Over any interleaving of resolvers and blocking calls: an attention has at most one
   * inbox row, and a call is answered with allow only if the one row of its own
   * attention, carrying its own request id, says so.
   */
  lemma FirstResolveWins(steps: seq<Step>, i: nat, j: nat, k: nat)
    requires Exec(INIT, steps).Some?
    ensures
      var s := Exec(INIT, steps).value;
      && (i < |s.tables.inbox| && j < |s.tables.inbox| ==>
            s.tables.inbox[i].attention == s.tables.inbox[j].attention ==> i == j)
      && (k < |s.calls| && s.calls[k].outcome == Answered(Allow) ==>
            exists r :: 0 <= r < |s.tables.inbox| && s.tables.inbox[r].attention == s.calls[k].attention
              && s.tables.inbox[r].requestId == Some(s.calls[k].requestId)
              && s.tables.inbox[r].behavior == Some(Allow))
  {
    RunsKeepInv(INIT, steps);
    var s := Exec(INIT, steps).value;
    if k < |s.calls| && s.calls[k].outcome == Answered(Allow) {
      var r :| 0 <= r < |s.tables.inbox| && s.tables.inbox[r].attention == s.calls[k].attention
        && s.tables.inbox[r].behavior == Some(Allow);
      var row := s.tables.inbox[r];
      assert RowOf(s.tables.attentions[row.attention], row);
      assert row.requestId == Some(s.calls[k].requestId);
    }
  }

  // ------------------------------------------------------------ the claim that counts

  /** Does this step resolve the attention, if nothing has before? With what behavior? */
  ghost function Resolution(s: State, step: Step, id: nat): Option<Option<Behavior>> {
    match step
    case ResolveBy(account, attention, behavior) =>
      if attention == id && id in s.tables.attentions && s.tables.attentions[id].account == account
      then Some(behavior) else None
    case GiveUp(k, cleanupFails) =>
      if k < |s.calls| && s.calls[k].attention == id && !cleanupFails then Some(Some(Deny)) else None
    case _ => None
  }

  /** The behavior that the first resolution of the attention passed, on this run. */
  ghost function FirstResolution(steps: seq<Step>, id: nat): Option<Option<Behavior>> {
    if steps == [] then None
    else
      var before := steps[..|steps| - 1];
      var earlier := FirstResolution(before, id);
      if earlier.Some? || Exec(INIT, before).None? then earlier
      else Resolution(Exec(INIT, before).value, steps[|steps| - 1], id)
  }

  ghost predicate HasRow(t: Tables, id: nat) {
    exists i :: 0 <= i < |t.inbox| && t.inbox[i].attention == id
  }

  /** The tables hold a row for the attention exactly if it was resolved, and as the first resolution said. */
  ghost predicate AsResolved(t: Tables, id: nat, first: Option<Option<Behavior>>) {
    && (first.Some? <==> IsResolved(t, id)) && (first.Some? <==> HasRow(t, id))
    && (first.Some? ==>
          forall i :: 0 <= i < |t.inbox| && t.inbox[i].attention == id ==>
            Carries(t.inbox[i], t.attentions[id], id, first.value))
  }

  lemma ResolveAsSaid(t: Tables, account: nat, id: nat, behavior: Option<Behavior>, other: nat,
                      first: Option<Option<Behavior>>)
    requires OneRowEach(t) && AsResolved(t, other, first)
    ensures
      var claims := other == id && id in t.attentions && t.attentions[id].account == account;
      AsResolved(Resolve(t, account, id, behavior), other, if first.Some? || !claims then first else Some(behavior))
  {
    var u := Resolve(t, account, id, behavior);
    if u != t {
      assert u.inbox[|t.inbox|].attention == id;
      assert forall i :: 0 <= i < |t.inbox| ==> u.inbox[i] == t.inbox[i];
      if HasRow(t, other) {
        var i :| 0 <= i < |t.inbox| && t.inbox[i].attention == other;
        assert u.inbox[i].attention == other;
      }
    }
  }

  lemma AddedIsUnresolved(t: Tables, id: nat, a: Attention, other: nat, first: Option<Option<Behavior>>)
    requires OneRowEach(t) && AsResolved(t, other, first) && id !in t.attentions && !a.resolved
    ensures AsResolved(t.(attentions := t.attentions[id := a]), other, first)
  {
    var u := t.(attentions := t.attentions[id := a]);
    assert HasRow(u, other) == HasRow(t, other);
  }

  lemma AsResolvedKept(s: State, step: Step, id: nat, first: Option<Option<Behavior>>)
    requires Inv(s) && Enabled(s, step) && AsResolved(s.tables, id, first)
    ensures AsResolved(Apply(s, step).tables, id, if first.Some? then first else Resolution(s, step, id))
  {
    hide AsResolved;
    match step {
      case Surface(other, a) => AddedIsUnresolved(s.tables, other, a, id, first);
      case Open(account, session, requestId, other) =>
        AddedIsUnresolved(s.tables, other, Attention(account, session, true, Some(requestId), false), id, first);
      case ResolveBy(account, other, behavior) => ResolveAsSaid(s.tables, account, other, behavior, id, first);
      case GiveUp(k, _) => ResolveAsSaid(s.tables, s.calls[k].account, s.calls[k].attention, Some(Deny), id, first);
      case Check(_) =>
      case Break(_) =>
    }
  }

  /**
   * Over every run: an attention has a row exactly if some step has resolved it, and the
   * row carries what the first such step passed. So a permission's verdict says allow if
   * and only if the resolution that won was an explicit allow.
   */
  lemma {:induction false} RowsCarryTheFirstResolution(steps: seq<Step>, id: nat)
    requires Exec(INIT, steps).Some?
    ensures Inv(Exec(INIT, steps).value)
    ensures AsResolved(Exec(INIT, steps).value.tables, id, FirstResolution(steps, id))
  {
    RunsKeepInv(INIT, steps);
    if steps != [] {
      var before := steps[..|steps| - 1];
      RowsCarryTheFirstResolution(before, id);
      AsResolvedKept(Exec(INIT, before).value, steps[|steps| - 1], id, FirstResolution(before, id));
    }
  }

  lemma {:induction false} MatchIsFound(inbox: seq<InboxRow>, account: nat, session: nat, requestId: nat, i: nat)
    requires i < |inbox| && Matches(inbox[i], account, session, requestId)
    ensures FindVerdict(inbox, account, session, requestId).Some?
  {
    if i < |inbox| - 1 { MatchIsFound(inbox[..|inbox| - 1], account, session, requestId, i); }
  }

  /** A call's query finds nothing while its attention is unresolved, and then the first resolution. */
  lemma QueryFindsTheFirstResolution(s: State, k: nat, first: Option<Option<Behavior>>)
    requires Inv(s) && k < |s.calls| && AsResolved(s.tables, s.calls[k].attention, first)
    ensures
      var c := s.calls[k];
      FindVerdict(s.tables.inbox, c.account, c.session, c.requestId)
      == if first.None? then None else Some(if first.value == Some(Allow) then Allow else Deny)
  {
    var c := s.calls[k];
    if first.Some? {
      var i :| 0 <= i < |s.tables.inbox| && s.tables.inbox[i].attention == c.attention;
      assert RowOf(s.tables.attentions[c.attention], s.tables.inbox[i]);
      MatchIsFound(s.tables.inbox, c.account, c.session, c.requestId, i);
    }
    if FindVerdict(s.tables.inbox, c.account, c.session, c.requestId).Some? {
      var i := VerdictIsARow(s.tables.inbox, c.account, c.session, c.requestId);
      assert RowOf(s.tables.attentions[s.tables.inbox[i].attention], s.tables.inbox[i]);
      assert s.tables.inbox[i].attention == c.attention;
      assert Carries(s.tables.inbox[i], s.tables.attentions[c.attention], c.attention, first.value);
      var found := FindVerdict(s.tables.inbox, c.account, c.session, c.requestId).value;
      assert found.Allow? || found.Deny?;
    }
  }

  /** The answer a call that is still open gets when it checks: the first resolution's, or none yet. */
  ghost function AnswerBy(first: Option<Option<Behavior>>): Outcome {
    if first.None? then Pending else Answered(if first.value == Some(Allow) then Allow else Deny)
  }

  /**
   * The user's allow becomes one, over every run: an open call that checks is answered
   * allow if the first resolution of its attention was an explicit allow, deny if it was
   * anything else, and stays open if there was none.
   */
  lemma {:induction false} CheckAnswersTheFirstResolution(steps: seq<Step>, k: nat)
    requires Exec(INIT, steps).Some? && IsPending(Exec(INIT, steps).value, k)
    ensures
      var s := Exec(INIT, steps).value;
      var t := Apply(s, Check(k));
      t.tables == s.tables && t.calls[k].outcome == AnswerBy(FirstResolution(steps, s.calls[k].attention))
  {
    var s := Exec(INIT, steps).value;
    RowsCarryTheFirstResolution(steps, s.calls[k].attention);
    QueryFindsTheFirstResolution(s, k, FirstResolution(steps, s.calls[k].attention));
  }

  /** And over every run a call answered allow is one whose attention was first resolved by an explicit allow. */
  lemma {:induction false} AllowNeedsTheFirstResolution(steps: seq<Step>, k: nat)
    requires Exec(INIT, steps).Some? && k < |Exec(INIT, steps).value.calls|
    ensures
      var c := Exec(INIT, steps).value.calls[k];
      c.outcome == Answered(Allow) ==> FirstResolution(steps, c.attention) == Some(Some(Allow))
  {
    RowsCarryTheFirstResolution(steps, Exec(INIT, steps).value.calls[k].attention);
  }

  // ------------------------------------------------------------ what later steps cannot change

  ghost predicate IsResolved(t: Tables, id: nat) {
    id in t.attentions && t.attentions[id].resolved
  }

  lemma {:induction false} ResolvedIsFinal(s: State, steps: seq<Step>, id: nat)
    requires IsResolved(s.tables, id) && Exec(s, steps).Some?
    ensures
      var t := Exec(s, steps).value;
      && IsResolved(t.tables, id) && |s.tables.inbox| <= |t.tables.inbox|
      && (forall i :: |s.tables.inbox| <= i < |t.tables.inbox| ==> t.tables.inbox[i].attention != id)
  {
    if steps != [] {
      ResolvedIsFinal(s, steps[..|steps| - 1], id);
      RowsOnlyGrow(Exec(s, steps[..|steps| - 1]).value, steps[|steps| - 1]);
    }
  }

  /**
   * Once a call has given up and its clean-up landed, a late tap-back cannot approve
   * it: whatever happens afterwards, no allow row for it appears that was not there.
   */
  lemma LateTapBackCannotApprove(s: State, k: nat, steps: seq<Step>)
    requires Inv(s) && Enabled(s, GiveUp(k, false))
    requires Exec(Apply(s, GiveUp(k, false)), steps).Some?
    ensures
      var t := Exec(Apply(s, GiveUp(k, false)), steps).value;
      AllowedByUser(t, s.calls[k]) ==> AllowedByUser(s, s.calls[k])
  {
    var c := s.calls[k];
    var u := Apply(s, GiveUp(k, false));
    InvKept(s, GiveUp(k, false));
    RowsOnlyGrow(s, GiveUp(k, false));
    ResolvedIsFinal(u, steps, c.attention);
    RunsKeepInv(u, steps);
    var t := Exec(u, steps).value;
    if AllowedByUser(t, c) {
      var i :| 0 <= i < |t.tables.inbox| && t.tables.inbox[i].attention == c.attention && t.tables.inbox[i].behavior == Some(Allow);
      assert i < |u.tables.inbox| && u.tables.inbox[i] == t.tables.inbox[i];
      assert i < |s.tables.inbox|;
    }
  }
}
