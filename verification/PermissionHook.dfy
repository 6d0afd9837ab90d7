/**
 * The blocking permission path of a Codex tool call: the server's bounded wait and the
 * hook's order of decisions.
 */
module PermissionHook {
  import opened Common
  import opened Verdicts

  const PERMISSION_DEADLINE_MS: int := 3_000_000
  const CODEX_HOOK_TIMEOUT_MS: int := 3_600_000
  const MESSAGE_USER_TOOL := "message_user"
  const CODEX_EDIT_TOOLS: seq<string> := ["apply_patch", "Edit", "Write", "MultiEdit", "NotebookEdit"]

  // ------------------------------------------------------------ the hook

  predicate EndsWith(s: string, suffix: string) {
    |suffix| <= |s| && s[|s| - |suffix|..] == suffix
  }

  /** A tool, or its MCP-namespaced form. */
  predicate Names(toolName: string, tool: string) {
    toolName == tool || EndsWith(toolName, "__" + tool)
  }

  /** Everything but a file edit is destructive; so is a missing name. */
  method IsDestructiveCodexTool(toolName: string) returns (destructive: bool)
    ensures destructive <==> forall i :: 0 <= i < |CODEX_EDIT_TOOLS| ==> !Names(toolName, CODEX_EDIT_TOOLS[i])
  {
    if toolName == "" { return true; }
    if toolName in CODEX_EDIT_TOOLS { return false; }
    for i := 0 to |CODEX_EDIT_TOOLS|
      invariant forall j :: 0 <= j < i ==> !Names(toolName, CODEX_EDIT_TOOLS[j])
    {
      if EndsWith(toolName, "__" + CODEX_EDIT_TOOLS[i]) { return false; }
    }
    destructive := true;
  }

  /** What the hook's POST came back with: a 2xx body's behavior field, or anything else. */
  datatype Response = Ok(behavior: Option<string>) | NotOk | Threw

  datatype Decision = PassToNative | Emit(behavior: Behavior)

  function DecisionFromVerdict(ok: bool, behavior: Option<string>): Behavior {
    if !ok then Deny else if behavior == Some("allow") then Allow else Deny
  }

  /**
   * The hook, in the order of its early exits. `post` is the answer of the control
   * plane, consulted only when everything before it fell through.
   */
  method PermissionRequest(afk: bool, toolName: string, paired: bool, sessionKnown: bool, post: Response)
    returns (decision: Decision, asked: bool)
    ensures decision.PassToNative? <==> !afk
    ensures asked <==>
      && afk && paired && sessionKnown && !Names(toolName, MESSAGE_USER_TOOL)
      && forall i :: 0 <= i < |CODEX_EDIT_TOOLS| ==> !Names(toolName, CODEX_EDIT_TOOLS[i])
    ensures decision == Emit(Allow) <==>
      && afk
      && (|| (exists i :: 0 <= i < |CODEX_EDIT_TOOLS| && Names(toolName, CODEX_EDIT_TOOLS[i]))
          || Names(toolName, MESSAGE_USER_TOOL)
          || (paired && sessionKnown && post == Ok(Some("allow"))))
  {
    asked := false;
    if !afk { return PassToNative, asked; }
    var destructive := IsDestructiveCodexTool(toolName);
    if !destructive { return Emit(Allow), asked; }
    if toolName == MESSAGE_USER_TOOL || EndsWith(toolName, "__" + MESSAGE_USER_TOOL) { return Emit(Allow), asked; }
    if !paired { return Emit(Deny), asked; }
    if !sessionKnown { return Emit(Deny), asked; }
    asked := true;
    match post {
      case Threw => decision := Emit(Deny);
      case NotOk => decision := Emit(Deny);
      case Ok(behavior) => decision := Emit(DecisionFromVerdict(true, behavior));
    }
  }

  /** How a call's outcome reaches the hook, if nothing goes wrong on the way. */
  function Reply(outcome: Outcome): Response {
    match outcome
    case Pending => Threw
    case Answered(Allow) => Ok(Some("allow"))
    case Answered(Deny) => Ok(Some("deny"))
    case Failed => NotOk
  }

  /** A tool whose use is not decided on the device. */
  ghost predicate Remote(toolName: string) {
    && !Names(toolName, MESSAGE_USER_TOOL)
    && forall i :: 0 <= i < |CODEX_EDIT_TOOLS| ==> !Names(toolName, CODEX_EDIT_TOOLS[i])
  }

  /**
   * End to end, the other way: on any run, once the attention of an open call has been
   * resolved, a check answers the call, and with that answer delivered the hook allows
   * the tool if and only if the first resolution was an explicit allow.
   */
  method RemoteVerdictExactly(toolName: string, steps: seq<Step>, k: nat)
    returns (decision: Decision)
    requires Remote(toolName)
    requires Exec(INIT, steps).Some? && IsPending(Exec(INIT, steps).value, k)
    requires FirstResolution(steps, Exec(INIT, steps).value.calls[k].attention).Some?
    ensures decision.Emit?
    ensures decision == Emit(Allow) <==>
      FirstResolution(steps, Exec(INIT, steps).value.calls[k].attention) == Some(Some(Allow))
  {
    var checked := Apply(Exec(INIT, steps).value, Check(k));
    CheckAnswersTheFirstResolution(steps, k);
    var asked;
    decision, asked := PermissionRequest(true, toolName, true, true, Reply(checked.calls[k].outcome));
  }

  /** A response is the call's own reply, or any failure: an error, a non-2xx, a body that is not an allow. */
  predicate Conveys(post: Response, outcome: Outcome) {
    post == Reply(outcome) || post == Threw || post == NotOk || (post.Ok? && post.behavior != Some("allow"))
  }

  /**
   * End to end: on any run of the tables, a tool that is neither a file edit nor
   * message_user is allowed remotely only if the user's verdict row for the request id
   * the server minted for this very call says allow.
   */
  method RemoteAllowNeedsTheUser(afk: bool, toolName: string, paired: bool, sessionKnown: bool, post: Response,
                                 steps: seq<Step>, k: nat)
    returns (decision: Decision)
    requires Exec(INIT, steps).Some? && k < |Exec(INIT, steps).value.calls|
    requires Conveys(post, Exec(INIT, steps).value.calls[k].outcome)
    ensures
      afk && Remote(toolName) ==>
      var s := Exec(INIT, steps).value;
      && decision.Emit?
      && (decision == Emit(Allow) ==>
            exists r :: 0 <= r < |s.tables.inbox|
              && s.tables.inbox[r].requestId == Some(s.calls[k].requestId)
              && s.tables.inbox[r].attention == s.calls[k].attention
              && s.tables.inbox[r].behavior == Some(Allow))
      && (decision == Emit(Allow) ==> FirstResolution(steps, s.calls[k].attention) == Some(Some(Allow)))
  {
    AllowNeedsTheFirstResolution(steps, k);
    var asked;
    decision, asked := PermissionRequest(afk, toolName, paired, sessionKnown, post);
    FirstResolveWins(steps, 0, 0, k);
  }

  // ------------------------------------------------------------ the bounded wait

  /**
   * The endpoint's wait: park, re-query, wait for a wake or the deadline, re-query.
   * `verdict(i)` is what the i-th query finds and `query(i)` its duration; `park(i)` is
   * when the i-th park would be woken; `gone(i)` says that the client has hung up by
   * round i. After a deadline or a hang-up the attention is resolved as denied, which
   * takes `cleanup` ms, before the answer goes out.
   *
   * It answers allow only on an allow it read, answers deny explicitly otherwise, and
   * is done before the hook's own timeout as long as queries stay below three minutes.
   */
  method AwaitVerdict(start: int, verdict: nat -> Option<Behavior>, query: nat -> nat, park: nat -> nat,
                      gone: nat -> bool, cleanup: nat, ghost slowest: nat)
    returns (answer: Behavior, checks: nat, rounds: nat, finish: int)
    requires cleanup <= slowest && forall i: nat :: query(i) <= slowest
    ensures answer == Allow <==> checks > 0 && verdict(checks - 1) == Some(Allow)
    ensures forall i: nat :: i + 1 < checks ==> verdict(i).None?
    ensures forall i: nat :: i < rounds ==> !gone(i)
    ensures finish <= start + PERMISSION_DEADLINE_MS + 3 * (slowest + 1)
    ensures slowest < 180_000 ==> finish < start + CODEX_HOOK_TIMEOUT_MS
    ensures checks == 0 || verdict(checks - 1).None? ==>
      answer == Deny && (gone(rounds) || finish >= start + PERMISSION_DEADLINE_MS + cleanup)
  {
    var now := start;
    checks, rounds := 0, 0;
    while !gone(rounds)
      invariant rounds == 0 ==> now == start
      invariant start <= now <= start + PERMISSION_DEADLINE_MS + 2 * (slowest + 1)
      invariant forall j: nat :: j < checks ==> verdict(j).None?
      invariant forall j: nat :: j < rounds ==> !gone(j)
      decreases start + PERMISSION_DEADLINE_MS - now
    {
      var remaining := PERMISSION_DEADLINE_MS - (now - start);
      if remaining <= 0 { break; }
      var woken := now + if park(rounds) < remaining then park(rounds) else remaining;
      now := now + 1 + query(checks);
      checks := checks + 1;
      if verdict(checks - 1).Some? { return verdict(checks - 1).value, checks, rounds, now; }
      if now < woken { now := woken; }
      now := now + 1 + query(checks);
      checks := checks + 1;
      if verdict(checks - 1).Some? { return verdict(checks - 1).value, checks, rounds, now; }
      rounds := rounds + 1;
    }
    answer, finish := Deny, now + cleanup;
  }
}
