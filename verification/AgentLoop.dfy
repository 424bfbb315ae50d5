/** The run loop, its tool batches, and their pause and resume (agent/engine_loop.go, engine_resume.go). */
module AgentLoop {
  import opened Wrappers
  import opened Text

  // ---- data ----

  /** A call as the model client reports it; arguments are their JSON text. */
  datatype RawCall = RawCall(id: string, name: string, args: string)

  datatype ToolCall = ToolCall(id: string, thought: string, name: string, params: string)

  datatype Message = Message(role: string, content: string, callID: string, calls: seq<RawCall>)

  datatype Plan = Plan(summary: string, steps: seq<(string, string)>)

  datatype StepRec = StepRec(
    number: nat, thought: string, action: string, input: string, observation: string,
    error: Option<string>)

  /** The agent context: what is recorded about the run, without timings. */
  datatype Context = Context(maxSteps: nat, steps: seq<StepRec>, plan: Option<Plan>, toolCalls: nat, tokens: nat)

  datatype PendingTool = PendingTool(text: string, textAdded: bool, call: ToolCall, remaining: seq<ToolCall>)

  /** engineLoopState: what the loop updates as it goes. */
  datatype State = State(
    messages: seq<Message>,
    ctx: Context,
    planRequired: bool,
    parseFailures: nat,
    pending: Option<PendingTool>,
    approved: bool,
    lastSig: string,
    lastRepeat: nat)

  datatype PreDecision = Allow | Deny(reasons: string) | RequireApproval

  datatype PostDecision = Keep | Redact(content: string) | DenyOutput

  datatype Request = Asked | RequestFailed(error: string) | EncodeFailed(error: string)

  datatype Executed = Executed(observation: string, error: Option<string>)

  datatype Parsed = PlanReply(plan: Plan) | FinalReply

  datatype Reply =
    | ChatFailed
    | Reply(text: string, calls: seq<RawCall>, totalTokens: nat, otherTokens: nat, parsed: Option<Parsed>)

  /** The fixed wordings of the loop. */
  datatype Texts = Texts(
    notJSON: string, planFirst: string, planReceived: string, writeFiles: string,
    stopRepeating: string, outputBlocked: string)

  /** One stretch of running, until the loop returns. The model, the tools, the guard and the plan
      functions are oracles that may answer anything; a tool's answer may depend on the step and
      on how many calls of its batch are still to come. */
  datatype Env = Env(
    cancelled: nat -> bool,
    chat: (nat, seq<Message>) -> Reply,
    parseRetries: nat,
    tokenBudget: nat,
    filesMissing: nat -> bool,
    found: string -> bool,
    notFound: string -> string,
    guarded: bool,
    pre: ToolCall -> PreDecision,
    request: (nat, nat) -> Request,
    execute: (nat, nat, ToolCall) -> Executed,
    post: (string, string) -> PostDecision,
    wrap: (string, string) -> string,
    stops: string -> bool,
    normalizePlan: Plan -> Plan,
    advancePlan: Plan -> Plan,
    completePlan: Plan -> Plan,
    parsePlan: string -> Option<Plan>,
    texts: Texts)

  const REPEAT_LIMIT := 3

  // ---- tool calls in and out of the model client's format ----

  function Usable(calls: seq<RawCall>): seq<ToolCall> {
    if calls == [] then []
    else Usable(calls[..|calls| - 1]) + UsableOne(calls[|calls| - 1])
  }

  /** A call with a blank name is dropped; id and name are trimmed. */
  function UsableOne(c: RawCall): seq<ToolCall> {
    var name := Trim(c.name);
    if name == "" then [] else [ToolCall(Trim(c.id), "", name, c.args)]
  }

  method ToAgentToolCalls(calls: seq<RawCall>) returns (out: seq<ToolCall>)
    ensures out == Usable(calls)
  {
    out := [];
    for i := 0 to |calls|
      invariant out == Usable(calls[..i])
    {
      assert calls[..i + 1][..i] == calls[..i];
      var name := Trim(calls[i].name);
      if name == "" {
        continue;
      }
      out := out + [ToolCall(Trim(calls[i].id), "", name, calls[i].args)];
    }
    assert calls[..|calls|] == calls;
  }

  predicate WellNamed(calls: seq<RawCall>) {
    forall k :: 0 <= k < |calls| ==> Trim(calls[k].name) != "" && Trimmed(calls[k].id)
  }

  /** With proper names and trimmed ids nothing is dropped and the ids are kept. */
  lemma {:induction false} UsableKeepsAll(calls: seq<RawCall>)
    requires WellNamed(calls)
    ensures |Usable(calls)| == |calls|
    ensures forall k :: 0 <= k < |calls| ==> Usable(calls)[k].id == calls[k].id
  {
    if calls != [] {
      UsableKeepsAll(calls[..|calls| - 1]);
      TrimIdle(calls[|calls| - 1].id);
    }
  }

  // ---- one tool call ----

  datatype ToolOutcome = Pause | Result(observation: string, error: Option<string>)

  function WithErrorText(e: Executed): string {
    match e.error
    case None => e.observation
    case Some(err) =>
      if Trim(e.observation) == "" then "error: " + err else e.observation + "\n\nerror: " + err
  }

  function RunTool(env: Env, step: nat, remaining: nat, tc: ToolCall): ToolOutcome {
    var e := env.execute(step, remaining, tc);
    var observation := WithErrorText(e);
    if !env.guarded then Result(observation, e.error)
    else match env.post(tc.name, observation)
      case Keep => Result(observation, e.error)
      case Redact(content) => Result(if Trim(content) != "" then content else observation, e.error)
      case DenyOutput =>
        Result(env.texts.outputBlocked, Some(e.error.GetOr("blocked by guard")))
  }

  /** executeToolWithGuard: the guard's word first, then the tool, then the guard again. */
  function Execute(env: Env, approved: bool, step: nat, remaining: nat, tc: ToolCall): ToolOutcome {
    if !env.found(tc.name) then Result(env.notFound(tc.name), Some("tool not found"))
    else if !env.guarded then RunTool(env, step, remaining, tc)
    else match env.pre(tc)
      case Deny(reasons) => Result("Error: blocked by guard (" + reasons + ")", Some("blocked by guard"))
      case RequireApproval =>
        if approved then RunTool(env, step, remaining, tc)
        else (match env.request(step, remaining)
          case Asked => Pause
          case RequestFailed(err) => Result("Error: approval request failed: " + err, Some(err))
          case EncodeFailed(err) => Result("", Some(err)))
      case Allow => RunTool(env, step, remaining, tc)
  }

  function Signature(tc: ToolCall): string {
    if Trim(tc.name) == "" then "" else tc.name + ":" + tc.params
  }

  function Untrusted(name: string): bool {
    ToLower(Trim(name)) in ["url_fetch", "web_search", "read_file"]
  }

  function ResultMessage(env: Env, tc: ToolCall, observation: string, failed: bool): Message {
    var shown := if !failed && Untrusted(tc.name) then env.wrap(tc.name, observation) else observation;
    if Trim(tc.id) != "" then Message("tool", shown, tc.id, [])
    else Message("user", "Tool Result (" + tc.name + "):\n" + shown, "", [])
  }

  function Recorded(ctx: Context, step: nat, tc: ToolCall, observation: string, error: Option<string>): Context {
    ctx.(steps := ctx.steps + [StepRec(step, tc.thought, tc.name, tc.params, observation, error)],
         toolCalls := ctx.toolCalls + 1)
  }

  function PlanAfter(env: Env, plan: Option<Plan>, tc: ToolCall, observation: string, failed: bool): Option<Plan> {
    if failed then plan
    else if tc.name == "plan_create" then
      if plan.Some? then plan
      else match env.parsePlan(observation)
        case None => None
        case Some(p) => Some(env.normalizePlan(p))
    else match plan
      case None => None
      case Some(p) => Some(env.advancePlan(p))
  }

  // ---- one batch ----

  datatype BatchEnd =
    | Completed(st: State)
    | PausedAt(st: State, call: ToolCall, remaining: seq<ToolCall>)
    | StoppedAfterSuccess(st: State)
    | RepeatLimit(st: State)

  /** What the loop does with the result of one call; None when the batch goes on is left
      to the state it returns. */
  function Settle(env: Env, st: State, step: nat, tc: ToolCall, observation: string, error: Option<string>): BatchEnd {
    var ctx := Recorded(st.ctx, step, tc, observation, error);
    var failed := error.Some?;
    var st1 := st.(ctx := ctx.(plan := PlanAfter(env, ctx.plan, tc, observation, failed)));
    if !failed && env.found(tc.name) && env.stops(tc.name) then StoppedAfterSuccess(st1)
    else
      var st2 := st1.(messages := st1.messages + [ResultMessage(env, tc, observation, failed)]);
      if failed then Completed(st2.(lastSig := "", lastRepeat := 0))
      else
        var sig := Signature(tc);
        var repeat := if sig == st2.lastSig then st2.lastRepeat + 1 else 1;
        var st3 := st2.(lastSig := sig, lastRepeat := repeat);
        if repeat >= REPEAT_LIMIT then
          RepeatLimit(st3.(messages := st3.messages + [Message("user", env.texts.stopRepeating, "", [])]))
        else Completed(st3)
  }

  function Batch(env: Env, st: State, step: nat, calls: seq<ToolCall>): BatchEnd
    decreases |calls|
  {
    if calls == [] then Completed(st)
    else
      match Execute(env, st.approved, step, |calls| - 1, calls[0])
      case Pause => PausedAt(st, calls[0], calls[1..])
      case Result(observation, error) =>
        match Settle(env, st, step, calls[0], observation, error)
        case Completed(st') => Batch(env, st', step, calls[1..])
        case end => end
  }

  // ---- snapshots ----

  datatype StepSnap = StepSnap(
    number: nat, thought: string, action: string, input: string, observation: string, error: string)

  /** resumeStateV1 with the context snapshot unfolded. */
  datatype Snapshot = Snapshot(
    step: nat, planRequired: bool, parseFailures: nat, messages: seq<Message>,
    maxSteps: nat, plan: Option<Plan>, toolCalls: nat, tokens: nat, steps: seq<StepSnap>,
    pending: PendingTool)

  function SnapStep(s: StepRec): StepSnap {
    StepSnap(s.number, s.thought, s.action, s.input, s.observation, s.error.GetOr(""))
  }

  function RestoreStep(s: StepSnap): StepRec {
    StepRec(s.number, s.thought, s.action, s.input, s.observation, if s.error == "" then None else Some(s.error))
  }

  function SnapSteps(steps: seq<StepRec>): seq<StepSnap> {
    seq(|steps|, i requires 0 <= i < |steps| => SnapStep(steps[i]))
  }

  function RestoreSteps(steps: seq<StepSnap>): seq<StepRec> {
    seq(|steps|, i requires 0 <= i < |steps| => RestoreStep(steps[i]))
  }

  method SnapshotFromContext(steps: seq<StepRec>) returns (out: seq<StepSnap>)
    ensures out == SnapSteps(steps)
  {
    out := [];
    for i := 0 to |steps|
      invariant out == SnapSteps(steps[..i])
    {
      var errStr := "";
      if steps[i].error.Some? {
        errStr := steps[i].error.value;
      }
      var s := steps[i];
      out := out + [StepSnap(s.number, s.thought, s.action, s.input, s.observation, errStr)];
    }
    assert steps[..|steps|] == steps;
  }

  method ContextFromSnapshot(steps: seq<StepSnap>) returns (out: seq<StepRec>)
    ensures out == RestoreSteps(steps)
  {
    out := [];
    for i := 0 to |steps|
      invariant out == RestoreSteps(steps[..i])
    {
      var err: Option<string> := None;
      if steps[i].error != "" {
        err := Some(steps[i].error);
      }
      var s := steps[i];
      out := out + [StepRec(s.number, s.thought, s.action, s.input, s.observation, err)];
    }
    assert steps[..|steps|] == steps;
  }

  function Snap(st: State, step: nat, pending: PendingTool): Snapshot {
    Snapshot(step, st.planRequired, st.parseFailures, st.messages, st.ctx.maxSteps, st.ctx.plan,
             st.ctx.toolCalls, st.ctx.tokens, SnapSteps(st.ctx.steps), pending)
  }

  /** The loop state an approved resume starts from. The repeat counter starts over, and the
      approval covers every call still to come in the batch. */
  function Restore(s: Snapshot): State {
    State(s.messages, Context(s.maxSteps, RestoreSteps(s.steps), s.plan, s.toolCalls, s.tokens),
          s.planRequired, s.parseFailures, Some(s.pending), true, "", 0)
  }

  // ---- one iteration ----

  datatype Iteration =
    | Next(st: State)
    | Finished(st: State)
    | Failed
    | PausedRun(snap: Snapshot)
    | Conclude(st: State)

  function Say(st: State, text: string, answer: string): State {
    st.(messages := st.messages + [Message("assistant", text, "", []), Message("user", answer, "", [])])
  }

  function ToRaw(calls: seq<ToolCall>): seq<RawCall> {
    if calls == [] then []
    else
      var c := calls[0];
      (if Trim(c.name) == "" then [] else [RawCall(Trim(c.id), Trim(c.name), c.params)]) + ToRaw(calls[1..])
  }

  function AddTokens(st: State, total: nat, other: nat): State {
    var t := st.ctx.tokens + total;
    st.(ctx := st.ctx.(tokens := if t == 0 then other else t))
  }

  /** The tool-call branch: the assistant message once, then the batch. */
  function ToolPhase(env: Env, st: State, step: nat, text: string, raw: seq<RawCall>, calls: seq<ToolCall>): Iteration {
    var added := st.pending.Some? && st.pending.value.textAdded;
    var st1 := if added then st else st.(messages := st.messages + [Message("assistant", text, "", raw)]);
    match Batch(env, st1, step, calls)
    case Completed(st') => Next(st'.(pending := None, approved := false))
    case PausedAt(st', call, remaining) => PausedRun(Snap(st', step, PendingTool(text, true, call, remaining)))
    case StoppedAfterSuccess(st') => Finished(st')
    case RepeatLimit(st') => Conclude(st')
  }

  predicate PlanMissing(st: State) {
    st.planRequired && st.ctx.plan.None?
  }

  function FinalPhase(env: Env, st: State, step: nat, text: string): Iteration {
    var st1 := st.(ctx := st.ctx.(plan := match st.ctx.plan case None => None case Some(p) => Some(env.completePlan(p))));
    if env.filesMissing(step) then Next(Say(st1, text, env.texts.writeFiles)) else Finished(st1)
  }

  /** What the loop does with a reply of the model. */
  function OnReply(env: Env, st: State, step: nat, r: Reply): Iteration
    requires r.Reply?
  {
    var st1 := AddTokens(st, r.totalTokens, r.otherTokens);
    if env.tokenBudget > 0 && st1.ctx.tokens > env.tokenBudget then Conclude(st1)
    else if Usable(r.calls) == [] && r.parsed.None? then
      var st2 := st1.(parseFailures := st1.parseFailures + 1);
      if st2.parseFailures > env.parseRetries then Conclude(st2) else Next(Say(st2, r.text, env.texts.notJSON))
    else
      var st2 := st1.(parseFailures := 0);
      if Usable(r.calls) != [] then
        if PlanMissing(st2) then Next(Say(st2, r.text, env.texts.planFirst))
        else ToolPhase(env, st2, step, r.text, r.calls, Usable(r.calls))
      else match r.parsed.value
        case PlanReply(p) =>
          Next(Say(st2.(ctx := st2.ctx.(plan := Some(env.normalizePlan(p)))), r.text, env.texts.planReceived))
        case FinalReply =>
          if PlanMissing(st2) then Next(Say(st2, r.text, env.texts.planFirst))
          else FinalPhase(env, st2, step, r.text)
  }

  /** The iteration asks the model: it is neither cancelled nor working off a stored batch. */
  predicate Asks(env: Env, st: State, step: nat) {
    !env.cancelled(step) && st.pending.None?
  }

  function Iterate(env: Env, st: State, step: nat): Iteration {
    if env.cancelled(step) then Failed
    else match st.pending
      case Some(p) =>
        var calls := [p.call] + p.remaining;
        ToolPhase(env, st, step, p.text, ToRaw(calls), calls)
      case None =>
        var r := env.chat(step, st.messages);
        if r.ChatFailed? then Failed else OnReply(env, st, step, r)
  }

  // ---- one run ----

  datatype RunEnd = Ended | Errored | Pausing(snap: Snapshot) | Forced

  /** The messages each in-loop call of the model saw, by step, and how the run ended.
      Forced stands for the one closing call outside the loop. */
  datatype RunResult = RunResult(chats: seq<(nat, seq<Message>)>, end: RunEnd)

  function ChatAt(env: Env, st: State, step: nat): seq<(nat, seq<Message>)> {
    if Asks(env, st, step) then [(step, st.messages)] else []
  }

  function Run(env: Env, st: State, step: nat): RunResult
    decreases st.ctx.maxSteps - step
  {
    if step >= st.ctx.maxSteps then RunResult([], Forced)
    else
      var chat := ChatAt(env, st, step);
      var it := Iterate(env, st, step);
      if it.Next? then
        IterateKeepsLimit(env, st, step);
        Prefixed(chat, Run(env, it.st, step + 1))
      else RunResult(chat, EndOf(it))
  }

  function EndOf(it: Iteration): RunEnd
    requires !it.Next?
  {
    match it
    case Finished(_) => Ended
    case Failed => Errored
    case PausedRun(snap) => Pausing(snap)
    case Conclude(_) => Forced
  }

  function Prefixed(chats: seq<(nat, seq<Message>)>, r: RunResult): RunResult {
    RunResult(chats + r.chats, r.end)
  }

  lemma {:induction false} BatchKeeps(env: Env, st: State, step: nat, calls: seq<ToolCall>)
    ensures var end := Batch(env, st, step, calls);
      end.st.ctx.maxSteps == st.ctx.maxSteps && end.st.approved == st.approved
    ensures st.approved ==> !Batch(env, st, step, calls).PausedAt?
    decreases |calls|
  {
    if calls != [] {
      var r := Execute(env, st.approved, step, |calls| - 1, calls[0]);
      if r.Result? {
        var end := Settle(env, st, step, calls[0], r.observation, r.error);
        if end.Completed? {
          BatchKeeps(env, end.st, step, calls[1..]);
        }
      }
    }
  }

  lemma IterateKeepsLimit(env: Env, st: State, step: nat)
    ensures var it := Iterate(env, st, step);
      && (it.Next? ==> it.st.ctx.maxSteps == st.ctx.maxSteps && it.st.pending.None?)
      && (it.PausedRun? ==> it.snap.maxSteps == st.ctx.maxSteps && it.snap.step == step)
      && (it.PausedRun? && st.pending.Some? ==> !st.approved)
  {
    match st.pending
    case Some(p) =>
      var calls := [p.call] + p.remaining;
      var st1 := if p.textAdded then st else st.(messages := st.messages + [Message("assistant", p.text, "", ToRaw(calls))]);
      BatchKeeps(env, st1, step, calls);
    case None =>
      var r := env.chat(step, st.messages);
      if r.Reply? {
        var st2 := AddTokens(st, r.totalTokens, r.otherTokens).(parseFailures := 0);
        BatchKeeps(env, st2.(messages := st2.messages + [Message("assistant", r.text, "", r.calls)]), step, Usable(r.calls));
      }
  }

  // ---- the loop itself ----

  class Engine {
    const env: Env
    var st: State

    constructor (env: Env, st: State)
      ensures this.env == env && this.st == st
    {
      this.env, this.st := env, st;
    }

    method ExecuteToolWithGuard(step: nat, tc: ToolCall, remaining: seq<ToolCall>) returns (out: ToolOutcome)
      ensures out == Execute(env, st.approved, step, |remaining|, tc)
    {
      if !env.found(tc.name) {
        return Result(env.notFound(tc.name), Some("tool not found"));
      }
      if env.guarded {
        match env.pre(tc)
        case Deny(reasons) =>
          return Result("Error: blocked by guard (" + reasons + ")", Some("blocked by guard"));
        case RequireApproval =>
          if !st.approved {
            match env.request(step, |remaining|)
            case Asked => return Pause;
            case RequestFailed(err) => return Result("Error: approval request failed: " + err, Some(err));
            case EncodeFailed(err) => return Result("", Some(err));
          }
        case Allow =>
      }
      var e := env.execute(step, |remaining|, tc);
      var observation, toolErr := e.observation, e.error;
      if toolErr.Some? {
        if Trim(observation) == "" {
          observation := "error: " + toolErr.value;
        } else {
          observation := observation + "\n\nerror: " + toolErr.value;
        }
      }
      if env.guarded {
        match env.post(tc.name, observation)
        case Keep =>
        case Redact(content) =>
          if Trim(content) != "" {
            observation := content;
          }
        case DenyOutput =>
          observation := env.texts.outputBlocked;
          if toolErr.None? {
            toolErr := Some("blocked by guard");
          }
      }
      return Result(observation, toolErr);
    }

    method RunBatch(step: nat, calls: seq<ToolCall>) returns (end: BatchEnd)
      modifies this
      ensures end == Batch(env, old(st), step, calls) && st == end.st
    {
      for i := 0 to |calls|
        invariant Batch(env, old(st), step, calls) == Batch(env, st, step, calls[i..])
      {
        var tc, remaining := calls[i], calls[i + 1..];
        assert calls[i..][1..] == remaining;
        var outcome := ExecuteToolWithGuard(step, tc, remaining);
        if outcome.Pause? {
          return PausedAt(st, tc, remaining);
        }
        end := FinishCall(step, tc, outcome.observation, outcome.error);
        if !end.Completed? {
          return;
        }
      }
      assert calls[|calls|..] == [];
      end := Completed(st);
    }

    /** Record the step, advance the plan, answer the call and count repeats. */
    method FinishCall(step: nat, tc: ToolCall, observation: string, toolErr: Option<string>) returns (end: BatchEnd)
      modifies this
      ensures end == Settle(env, old(st), step, tc, observation, toolErr) && st == end.st
    {
      st := st.(ctx := Recorded(st.ctx, step, tc, observation, toolErr));
      st := st.(ctx := st.ctx.(plan := PlanAfter(env, st.ctx.plan, tc, observation, toolErr.Some?)));
      if toolErr.None? && env.found(tc.name) && env.stops(tc.name) {
        return StoppedAfterSuccess(st);
      }
      st := st.(messages := st.messages + [ResultMessage(env, tc, observation, toolErr.Some?)]);
      if toolErr.Some? {
        st := st.(lastSig := "", lastRepeat := 0);
        return Completed(st);
      }
      var sig := Signature(tc);
      if sig == st.lastSig {
        st := st.(lastRepeat := st.lastRepeat + 1);
      } else {
        st := st.(lastSig := sig, lastRepeat := 1);
      }
      if st.lastRepeat >= REPEAT_LIMIT {
        st := st.(messages := st.messages + [Message("user", env.texts.stopRepeating, "", [])]);
        return RepeatLimit(st);
      }
      return Completed(st);
    }

    method RunTools(step: nat, text: string, raw: seq<RawCall>, calls: seq<ToolCall>) returns (it: Iteration)
      modifies this
      ensures it == ToolPhase(env, old(st), step, text, raw, calls)
      ensures it.Next? ==> st == it.st
    {
      if st.pending.None? || !st.pending.value.textAdded {
        st := st.(messages := st.messages + [Message("assistant", text, "", raw)]);
      }
      var end := RunBatch(step, calls);
      match end
      case PausedAt(_, call, remaining) => return PausedRun(Snap(st, step, PendingTool(text, true, call, remaining)));
      case StoppedAfterSuccess(_) => return Finished(st);
      case RepeatLimit(_) => return Conclude(st);
      case Completed(_) =>
        st := st.(pending := None, approved := false);
        return Next(st);
    }

    method RunReply(step: nat, r: Reply) returns (it: Iteration)
      requires r.Reply?
      modifies this
      ensures it == OnReply(env, old(st), step, r)
      ensures it.Next? ==> st == it.st
    {
      st := AddTokens(st, r.totalTokens, r.otherTokens);
      if env.tokenBudget > 0 && st.ctx.tokens > env.tokenBudget {
        return Conclude(st);
      }
      var calls := ToAgentToolCalls(r.calls);
      if calls == [] && r.parsed.None? {
        st := st.(parseFailures := st.parseFailures + 1);
        if st.parseFailures > env.parseRetries {
          return Conclude(st);
        }
        st := Say(st, r.text, env.texts.notJSON);
        return Next(st);
      }
      st := st.(parseFailures := 0);
      if PlanMissing(st) && (calls != [] || r.parsed.value.FinalReply?) {
        st := Say(st, r.text, env.texts.planFirst);
        return Next(st);
      }
      if calls != [] {
        it := RunTools(step, r.text, r.calls, calls);
        return;
      }
      match r.parsed.value
      case PlanReply(p) =>
        st := st.(ctx := st.ctx.(plan := Some(env.normalizePlan(p))));
        st := Say(st, r.text, env.texts.planReceived);
        return Next(st);
      case FinalReply =>
        if st.ctx.plan.Some? {
          st := st.(ctx := st.ctx.(plan := Some(env.completePlan(st.ctx.plan.value))));
        }
        if env.filesMissing(step) {
          st := Say(st, r.text, env.texts.writeFiles);
          return Next(st);
        }
        return Finished(st);
    }

    /** One pass through the loop, with the conversation shown to the model, if any. */
    method RunStep(step: nat) returns (it: Iteration, asked: seq<(nat, seq<Message>)>)
      modifies this
      ensures it == Iterate(env, old(st), step) && asked == ChatAt(env, old(st), step)
      ensures it.Next? ==> st == it.st
    {
      asked := [];
      if env.cancelled(step) {
        return Failed, asked;
      }
      if st.pending.Some? {
        var calls := [st.pending.value.call] + st.pending.value.remaining;
        it := RunTools(step, st.pending.value.text, ToRaw(calls), calls);
      } else {
        asked := [(step, st.messages)];
        var reply := env.chat(step, st.messages);
        if reply.ChatFailed? {
          return Failed, asked;
        }
        it := RunReply(step, reply);
      }
    }

    method RunLoop(nextStep: nat) returns (r: RunResult)
      modifies this
      ensures r == Run(env, old(st), nextStep)
    {
      ghost var whole := Run(env, st, nextStep);
      var step: nat, chats: seq<(nat, seq<Message>)> := nextStep, [];
      PrefixedNothing(whole);
      while step < st.ctx.maxSteps
        invariant whole == Prefixed(chats, Run(env, st, step))
        decreases st.ctx.maxSteps - step
      {
        IterateKeepsLimit(env, st, step);
        RunUnfolds(env, st, step, chats);
        var it, asked := RunStep(step);
        chats := chats + asked;
        if !it.Next? {
          return RunResult(chats, EndOf(it));
        }
        step := step + 1;
      }
      RunOut(env, st, step, chats);
      return RunResult(chats, Forced);
    }
  }

  lemma PrefixedNothing(r: RunResult)
    ensures Prefixed([], r) == r
  {
  }

  lemma RunOut(env: Env, st: State, step: nat, chats: seq<(nat, seq<Message>)>)
    requires step >= st.ctx.maxSteps
    ensures Prefixed(chats, Run(env, st, step)) == RunResult(chats, Forced)
  {
    assert chats + [] == chats;
  }

  lemma RunUnfolds(env: Env, st: State, step: nat, chats: seq<(nat, seq<Message>)>)
    requires step < st.ctx.maxSteps
    ensures var asked, it := chats + ChatAt(env, st, step), Iterate(env, st, step);
      Prefixed(chats, Run(env, st, step)) ==
        if it.Next? then Prefixed(asked, Run(env, it.st, step + 1)) else RunResult(asked, EndOf(it))
  {
    var it := Iterate(env, st, step);
    if it.Next? {
      IterateKeepsLimit(env, st, step);
      var rest := Run(env, it.st, step + 1).chats;
      assert chats + (ChatAt(env, st, step) + rest) == chats + ChatAt(env, st, step) + rest;
    }
  }

  // ---- pausing a batch and resuming it is running it straight through ----

  /** Equal records, an error counting by its text. */
  predicate SameUpToErrorText(a: State, b: State) {
    && a.messages == b.messages
    && a.ctx.(steps := []) == b.ctx.(steps := [])
    && SnapSteps(a.ctx.steps) == SnapSteps(b.ctx.steps)
  }

  /** The resumed side of a batch never counts more repeats than the straight one. */
  predicate Lags(straight: State, resumed: State) {
    (resumed.lastSig == straight.lastSig && resumed.lastRepeat <= straight.lastRepeat)
    || (resumed.lastSig == "" && resumed.lastRepeat == 0)
  }

  lemma SnapAppend(a: seq<StepRec>, b: seq<StepRec>, r: StepRec)
    requires SnapSteps(a) == SnapSteps(b)
    ensures SnapSteps(a + [r]) == SnapSteps(b + [r])
  {
    assert SnapSteps(a + [r]) == SnapSteps(a) + [SnapStep(r)];
    assert SnapSteps(b + [r]) == SnapSteps(b) + [SnapStep(r)];
  }

  lemma SettleAlike(env: Env, a: State, b: State, step: nat, tc: ToolCall, observation: string, error: Option<string>)
    requires SameUpToErrorText(a, b) && Lags(a, b)
    requires Settle(env, a, step, tc, observation, error).Completed?
    ensures var a', b' := Settle(env, a, step, tc, observation, error), Settle(env, b, step, tc, observation, error);
      && b'.Completed? && SameUpToErrorText(a'.st, b'.st) && Lags(a'.st, b'.st)
      && a'.st.approved == a.approved && b'.st.approved == b.approved
  {
    SnapAppend(a.ctx.steps, b.ctx.steps, StepRec(step, tc.thought, tc.name, tc.params, observation, error));
  }

  lemma {:induction false} BatchAlike(env: Env, a: State, b: State, step: nat, calls: seq<ToolCall>)
    requires SameUpToErrorText(a, b) && Lags(a, b) && a.approved && b.approved
    requires Batch(env, a, step, calls).Completed?
    ensures Batch(env, b, step, calls).Completed?
    ensures SameUpToErrorText(Batch(env, a, step, calls).st, Batch(env, b, step, calls).st)
    decreases |calls|
  {
    if calls != [] {
      var r := Execute(env, true, step, |calls| - 1, calls[0]);
      SettleAlike(env, a, b, step, calls[0], r.observation, r.error);
      BatchAlike(env, Settle(env, a, step, calls[0], r.observation, r.error).st,
                 Settle(env, b, step, calls[0], r.observation, r.error).st, step, calls[1..]);
    }
  }

  /** Approval requests reach the store, so a call that needs approval does pause. */
  ghost predicate RequestsWork(env: Env, step: nat) {
    forall r: nat :: env.request(step, r) == Asked
  }

  lemma RestoreIsSame(st: State, step: nat, p: PendingTool)
    ensures SameUpToErrorText(st, Restore(Snap(st, step, p)))
    ensures Lags(st, Restore(Snap(st, step, p)))
  {
    var back := RestoreSteps(SnapSteps(st.ctx.steps));
    forall i | 0 <= i < |back| ensures SnapStep(back[i]) == SnapStep(st.ctx.steps[i]) {
    }
    assert SnapSteps(back) == SnapSteps(st.ctx.steps);
  }

  lemma ExecuteAlike(env: Env, step: nat, remaining: nat, tc: ToolCall)
    requires RequestsWork(env, step)
    ensures var r := Execute(env, false, step, remaining, tc);
      r.Pause? || r == Execute(env, true, step, remaining, tc)
  {
    assert env.request(step, remaining) == Asked;
  }

  lemma SettleApproved(env: Env, st: State, step: nat, tc: ToolCall, observation: string, error: Option<string>)
    requires !st.approved
    ensures var end := Settle(env, st, step, tc, observation, error);
      var end' := Settle(env, st.(approved := true), step, tc, observation, error);
      && !end.st.approved && end'.st == end.st.(approved := true)
      && (end.Completed? ==> end'.Completed?)
  {
  }

  /** Granting approvals changes nothing before the first call that needs one. */
  lemma {:induction false} StraightReachesPause(env: Env, st: State, step: nat, calls: seq<ToolCall>)
    requires !st.approved && RequestsWork(env, step)
    requires Batch(env, st, step, calls).PausedAt?
    ensures var p := Batch(env, st, step, calls);
      Batch(env, st.(approved := true), step, calls)
      == Batch(env, p.st.(approved := true), step, [p.call] + p.remaining)
    decreases |calls|
  {
    var r := Execute(env, false, step, |calls| - 1, calls[0]);
    ExecuteAlike(env, step, |calls| - 1, calls[0]);
    if r.Pause? {
      assert [calls[0]] + calls[1..] == calls;
    } else {
      SettleApproved(env, st, step, calls[0], r.observation, r.error);
      StraightReachesPause(env, Settle(env, st, step, calls[0], r.observation, r.error).st, step, calls[1..]);
    }
  }

  /** Main result: a batch that pauses anywhere, is stored, and is resumed after approval
      leaves the same messages, step records (errors by their text), plan and counters as the
      batch run straight through with approvals granted, as long as the straight batch runs
      to its end. */
  lemma PauseResumeIsStraight(env: Env, st: State, step: nat, calls: seq<ToolCall>, text: string)
    requires !st.approved && RequestsWork(env, step)
    requires Batch(env, st, step, calls).PausedAt?
    requires Batch(env, st.(approved := true), step, calls).Completed?
    ensures var p := Batch(env, st, step, calls);
      var resumed := Restore(Snap(p.st, step, PendingTool(text, true, p.call, p.remaining)));
      var again := Batch(env, resumed, step, [p.call] + p.remaining);
      && again.Completed?
      && SameUpToErrorText(Batch(env, st.(approved := true), step, calls).st, again.st)
  {
    var p := Batch(env, st, step, calls);
    var pending := PendingTool(text, true, p.call, p.remaining);
    StraightReachesPause(env, st, step, calls);
    RestoreIsSame(p.st, step, pending);
    BatchAlike(env, p.st.(approved := true), Restore(Snap(p.st, step, pending)), step, [p.call] + p.remaining);
  }

  /** The same for the whole iteration: after the resumed step the loop stands where it would
      have stood, with nothing pending and no approval left over. */
  lemma ResumedStepIsStraight(env: Env, st: State, step: nat, text: string, raw: seq<RawCall>, calls: seq<ToolCall>)
    requires !st.approved && st.pending.None? && RequestsWork(env, step) && !env.cancelled(step)
    requires ToolPhase(env, st, step, text, raw, calls).PausedRun?
    requires ToolPhase(env, st.(approved := true), step, text, raw, calls).Next?
    ensures var straight := ToolPhase(env, st.(approved := true), step, text, raw, calls);
      var snap := ToolPhase(env, st, step, text, raw, calls).snap;
      var resumed := Iterate(env, Restore(snap), snap.step);
      && resumed.Next? && SameUpToErrorText(straight.st, resumed.st)
      && resumed.st.pending.None? && !resumed.st.approved
  {
    var st1 := st.(messages := st.messages + [Message("assistant", text, "", raw)]);
    PauseResumeIsStraight(env, st1, step, calls, text);
  }

  // ---- step indices over a whole chain of pauses ----

  function Steps(chats: seq<(nat, seq<Message>)>): seq<nat> {
    seq(|chats|, i requires 0 <= i < |chats| => chats[i].0)
  }

  predicate Climbs(xs: seq<nat>, lo: nat, hi: nat) {
    && (forall i :: 0 <= i < |xs| ==> lo <= xs[i] < hi)
    && (forall i, j :: 0 <= i < j < |xs| ==> xs[i] < xs[j])
  }

  lemma ClimbsCons(x: nat, m: seq<Message>, chats: seq<(nat, seq<Message>)>, hi: nat)
    requires Climbs(Steps(chats), x + 1, hi) && x < hi
    ensures Climbs(Steps([(x, m)] + chats), x, hi)
  {
    assert Steps([(x, m)] + chats) == [x] + Steps(chats);
  }

  lemma ClimbsWiden(xs: seq<nat>, lo: nat, hi: nat, lo': nat, hi': nat)
    requires Climbs(xs, lo, hi) && lo' <= lo && hi <= hi'
    ensures Climbs(xs, lo', hi')
  {
  }

  /** First step a run can ask at. */
  function FirstAsk(st: State, step: nat): nat {
    if st.pending.Some? then step + 1 else step
  }

  predicate RunBounds(r: RunResult, st: State, step: nat) {
    && Climbs(Steps(r.chats), FirstAsk(st, step), st.ctx.maxSteps)
    && (r.end.Pausing? ==>
          && r.end.snap.maxSteps == st.ctx.maxSteps
          && step <= r.end.snap.step < st.ctx.maxSteps
          && (st.pending.Some? && st.approved ==> step < r.end.snap.step)
          && Climbs(Steps(r.chats), FirstAsk(st, step), r.end.snap.step + 1))
  }

  lemma BoundsNext(r: RunResult, chat: seq<(nat, seq<Message>)>, st: State, st': State, step: nat)
    requires st'.pending.None? && st'.ctx.maxSteps == st.ctx.maxSteps && step < st.ctx.maxSteps
    requires RunBounds(r, st', step + 1)
    requires chat == [] || (st.pending.None? && chat == [(step, st.messages)])
    ensures RunBounds(RunResult(chat + r.chats, r.end), st, step)
  {
    var hi := if r.end.Pausing? then r.end.snap.step + 1 else st.ctx.maxSteps;
    if chat == [] {
      assert chat + r.chats == r.chats;
      ClimbsWiden(Steps(r.chats), step + 1, hi, FirstAsk(st, step), hi);
    } else {
      ClimbsCons(step, st.messages, r.chats, hi);
    }
    ClimbsWiden(Steps(chat + r.chats), FirstAsk(st, step), hi, FirstAsk(st, step), st.ctx.maxSteps);
  }

  lemma {:induction false} RunClimbs(env: Env, st: State, step: nat)
    ensures RunBounds(Run(env, st, step), st, step)
    decreases st.ctx.maxSteps - step
  {
    if step < st.ctx.maxSteps {
      IterateKeepsLimit(env, st, step);
      var it := Iterate(env, st, step);
      if it.Next? {
        RunClimbs(env, it.st, step + 1);
        BoundsNext(Run(env, it.st, step + 1), ChatAt(env, st, step), st, it.st, step);
      }
    }
  }

  /** A run and the runs that resume it, each with its own surroundings, for as long as the
      runs pause and there are surroundings left. */
  function Chain(envs: seq<Env>, st: State, step: nat): seq<RunResult> {
    if envs == [] then []
    else
      var r := Run(envs[0], st, step);
      [r] + (if r.end.Pausing? then Chain(envs[1..], Restore(r.end.snap), r.end.snap.step) else [])
  }

  function AllSteps(runs: seq<RunResult>): seq<nat> {
    if runs == [] then [] else Steps(runs[0].chats) + AllSteps(runs[1..])
  }

  function PauseSteps(runs: seq<RunResult>): seq<nat> {
    if runs == [] then []
    else (if runs[0].end.Pausing? then [runs[0].end.snap.step] else []) + PauseSteps(runs[1..])
  }

  function ForcedCalls(runs: seq<RunResult>): nat {
    if runs == [] then 0 else (if runs[0].end.Forced? then 1 else 0) + ForcedCalls(runs[1..])
  }

  lemma ClimbsJoin(a: seq<nat>, b: seq<nat>, lo: nat, mid: nat, hi: nat)
    requires Climbs(a, lo, mid) && Climbs(b, mid, hi) && lo <= mid <= hi
    ensures Climbs(a + b, lo, hi)
  {
  }

  lemma {:induction false} ClimbsIsShort(xs: seq<nat>, lo: nat, hi: nat)
    requires Climbs(xs, lo, hi) && lo <= hi
    ensures |xs| <= hi - lo
  {
    if xs != [] {
      var n := |xs| - 1;
      assert Climbs(xs[..n], lo, xs[n]) by {
        assert forall i :: 0 <= i < n ==> xs[i] < xs[n];
      }
      ClimbsIsShort(xs[..n], lo, xs[n]);
    }
  }

  predicate ChainBounds(runs: seq<RunResult>, first: nat, hi: nat) {
    && Climbs(AllSteps(runs), first, hi) && Climbs(PauseSteps(runs), first, hi)
    && ForcedCalls(runs) <= 1
  }

  lemma {:induction false} ChainClimbs(envs: seq<Env>, st: State, step: nat)
    requires st.pending.Some? ==> st.approved && step < st.ctx.maxSteps
    ensures ChainBounds(Chain(envs, st, step), FirstAsk(st, step), st.ctx.maxSteps)
    decreases |envs|
  {
    if envs != [] {
      RunClimbs(envs[0], st, step);
      var r := Run(envs[0], st, step);
      if r.end.Pausing? {
        var snap := r.end.snap;
        ChainClimbs(envs[1..], Restore(snap), snap.step);
        var rest := Chain(envs[1..], Restore(snap), snap.step);
        LinkClimbs(r, rest, FirstAsk(st, step), st.ctx.maxSteps);
      } else {
        LastClimbs(r, FirstAsk(st, step), st.ctx.maxSteps);
      }
    }
  }

  lemma LinkClimbs(r: RunResult, rest: seq<RunResult>, first: nat, hi: nat)
    requires r.end.Pausing? && first <= r.end.snap.step < hi
    requires Climbs(Steps(r.chats), first, r.end.snap.step + 1)
    requires ChainBounds(rest, r.end.snap.step + 1, hi)
    ensures ChainBounds([r] + rest, first, hi)
  {
    var runs, mid := [r] + rest, r.end.snap.step + 1;
    assert runs[0] == r && runs[1..] == rest;
    ClimbsJoin(Steps(r.chats), AllSteps(rest), first, mid, hi);
    ClimbsJoin([r.end.snap.step], PauseSteps(rest), first, mid, hi);
  }

  lemma LastClimbs(r: RunResult, first: nat, hi: nat)
    requires !r.end.Pausing? && Climbs(Steps(r.chats), first, hi)
    ensures ChainBounds([r] + [], first, hi)
  {
    var runs: seq<RunResult> := [r] + [];
    assert runs[1..] == [];
    assert AllSteps(runs) == Steps(r.chats) + [];
    assert AllSteps(runs) == Steps(r.chats);
    assert PauseSteps(runs) == [];
  }

  /** Main result: over a whole chain of pauses and resumes of one run, the in-loop calls of
      the model happen at distinct steps below the limit, so there are at most that many; each
      step pauses at most once; and at most one closing call is forced. */
  lemma ChainAsksEachStepOnce(envs: seq<Env>, st: State)
    requires st.pending.None?
    ensures var runs := Chain(envs, st, 0);
      && Climbs(AllSteps(runs), 0, st.ctx.maxSteps) && |AllSteps(runs)| <= st.ctx.maxSteps
      && Climbs(PauseSteps(runs), 0, st.ctx.maxSteps)
      && ForcedCalls(runs) <= 1
  {
    ChainClimbs(envs, st, 0);
    ClimbsIsShort(AllSteps(Chain(envs, st, 0)), 0, st.ctx.maxSteps);
  }

  // ---- every tool call is answered before the model is asked again ----

  /** The message the loop appends for a call. */
  predicate Answers(m: Message, tc: ToolCall) {
    && m.calls == []
    && if Trim(tc.id) != "" then m.role == "tool" && m.callID == tc.id
       else m.role == "user" && HasPrefix(m.content, "Tool Result (" + tc.name + "):\n")
  }

  /** The calls still unanswered after a conversation; None when an answer is missing, out of
      order, or belongs to no call. */
  function Open(ms: seq<Message>): Option<seq<ToolCall>> {
    if ms == [] then Some([])
    else match Open(ms[..|ms| - 1])
      case None => None
      case Some(todo) => OpenAfter(todo, ms[|ms| - 1])
  }

  function OpenAfter(todo: seq<ToolCall>, m: Message): Option<seq<ToolCall>> {
    if todo != [] then if Answers(m, todo[0]) then Some(todo[1..]) else None
    else if m.calls != [] then Some(Usable(m.calls))
    else if m.role == "tool" then None
    else Some([])
  }

  predicate AllAnswered(ms: seq<Message>) {
    Open(ms) == Some([])
  }

  lemma OpenStep(ms: seq<Message>, m: Message)
    requires Open(ms).Some?
    ensures Open(ms + [m]) == OpenAfter(Open(ms).value, m)
  {
    assert (ms + [m])[..|ms|] == ms;
  }

  lemma PlainKeepsAnswered(ms: seq<Message>, role: string, text: string)
    requires AllAnswered(ms) && role != "tool"
    ensures AllAnswered(ms + [Message(role, text, "", [])])
  {
    OpenStep(ms, Message(role, text, "", []));
  }

  lemma SayKeepsAnswered(st: State, text: string, answer: string)
    requires AllAnswered(st.messages)
    ensures AllAnswered(Say(st, text, answer).messages)
  {
    PlainKeepsAnswered(st.messages, "assistant", text);
    var ms := st.messages + [Message("assistant", text, "", [])];
    PlainKeepsAnswered(ms, "user", answer);
    assert Say(st, text, answer).messages == ms + [Message("user", answer, "", [])];
  }

  lemma ResultAnswers(env: Env, tc: ToolCall, observation: string, failed: bool)
    ensures Answers(ResultMessage(env, tc, observation, failed), tc)
  {
    var head := "Tool Result (" + tc.name + "):\n";
    var shown := if !failed && Untrusted(tc.name) then env.wrap(tc.name, observation) else observation;
    assert head <= head + shown;
  }

  lemma SettleAnswers(env: Env, st: State, step: nat, calls: seq<ToolCall>, observation: string, error: Option<string>)
    requires calls != [] && Open(st.messages) == Some(calls)
    requires Settle(env, st, step, calls[0], observation, error).Completed?
    ensures Open(Settle(env, st, step, calls[0], observation, error).st.messages) == Some(calls[1..])
  {
    ResultAnswers(env, calls[0], observation, error.Some?);
    OpenStep(st.messages, ResultMessage(env, calls[0], observation, error.Some?));
  }

  lemma {:induction false} BatchAnswers(env: Env, st: State, step: nat, calls: seq<ToolCall>)
    requires Open(st.messages) == Some(calls)
    ensures var end := Batch(env, st, step, calls);
      && (end.Completed? ==> AllAnswered(end.st.messages))
      && (end.PausedAt? ==> Open(end.st.messages) == Some([end.call] + end.remaining))
    decreases |calls|
  {
    if calls != [] {
      var r := Execute(env, st.approved, step, |calls| - 1, calls[0]);
      if r.Pause? {
        assert [calls[0]] + calls[1..] == calls;
      } else {
        var end := Settle(env, st, step, calls[0], r.observation, r.error);
        if end.Completed? {
          SettleAnswers(env, st, step, calls, r.observation, r.error);
          BatchAnswers(env, end.st, step, calls[1..]);
        }
      }
    }
  }

  /** Between iterations: nothing is open, or exactly the stored batch is. */
  predicate Ready(st: State) {
    match st.pending
    case None => AllAnswered(st.messages)
    case Some(p) => p.textAdded && Open(st.messages) == Some([p.call] + p.remaining)
  }

  lemma FreshBatchAnswers(env: Env, st: State, step: nat, text: string, raw: seq<RawCall>)
    requires st.pending.None? && AllAnswered(st.messages) && Usable(raw) != []
    ensures var it := ToolPhase(env, st, step, text, raw, Usable(raw));
      && (it.Next? ==> Ready(it.st))
      && (it.PausedRun? ==> Ready(Restore(it.snap)))
  {
    var m := Message("assistant", text, "", raw);
    OpenStep(st.messages, m);
    assert raw != [];
    BatchAnswers(env, st.(messages := st.messages + [m]), step, Usable(raw));
  }

  lemma ReplyKeepsReady(env: Env, st: State, step: nat, r: Reply)
    requires st.pending.None? && AllAnswered(st.messages) && r.Reply?
    ensures var it := OnReply(env, st, step, r);
      && (it.Next? ==> Ready(it.st))
      && (it.PausedRun? ==> Ready(Restore(it.snap)))
  {
    var st1 := AddTokens(st, r.totalTokens, r.otherTokens);
    var st2 := st1.(parseFailures := 0);
    if Usable(r.calls) != [] {
      FreshBatchAnswers(env, st2, step, r.text, r.calls);
      SayKeepsAnswered(st2, r.text, env.texts.planFirst);
    } else {
      TalkKeepsReady(env, st, step, r);
    }
  }

  lemma TalkKeepsReady(env: Env, st: State, step: nat, r: Reply)
    requires st.pending.None? && AllAnswered(st.messages) && r.Reply? && Usable(r.calls) == []
    ensures var it := OnReply(env, st, step, r);
      !it.PausedRun? && (it.Next? ==> Ready(it.st))
  {
    var st1 := AddTokens(st, r.totalTokens, r.otherTokens);
    var st2 := st1.(parseFailures := 0);
    assert st1.messages == st.messages && st1.pending.None?;
    match r.parsed
    case None => SayKeepsAnswered(st1.(parseFailures := st1.parseFailures + 1), r.text, env.texts.notJSON);
    case Some(PlanReply(p)) => SayKeepsAnswered(st2, r.text, env.texts.planReceived);
    case Some(FinalReply) =>
      SayKeepsAnswered(st2, r.text, env.texts.planFirst);
      SayKeepsAnswered(st2, r.text, env.texts.writeFiles);
  }

  lemma IterateKeepsReady(env: Env, st: State, step: nat)
    requires Ready(st)
    ensures var it := Iterate(env, st, step);
      && (it.Next? ==> Ready(it.st))
      && (it.PausedRun? ==> Ready(Restore(it.snap)))
  {
    match st.pending
    case Some(p) => BatchAnswers(env, st, step, [p.call] + p.remaining);
    case None =>
      var r := env.chat(step, st.messages);
      if r.Reply? {
        ReplyKeepsReady(env, st, step, r);
      }
  }

  predicate ChatsAnswered(chats: seq<(nat, seq<Message>)>) {
    forall i :: 0 <= i < |chats| ==> AllAnswered(chats[i].1)
  }

  /** Main result: at every in-loop call of the model, on a fresh run or a resumed one, every
      tool call in the conversation has been answered, once and in order. A run that pauses
      hands over a conversation in which exactly the stored calls are open. */
  lemma {:induction false} RunAsksAnswered(env: Env, st: State, step: nat)
    requires Ready(st)
    ensures ChatsAnswered(Run(env, st, step).chats)
    ensures Run(env, st, step).end.Pausing? ==> Ready(Restore(Run(env, st, step).end.snap))
    decreases st.ctx.maxSteps - step
  {
    if step < st.ctx.maxSteps {
      IterateKeepsReady(env, st, step);
      IterateKeepsLimit(env, st, step);
      var it := Iterate(env, st, step);
      if it.Next? {
        RunAsksAnswered(env, it.st, step + 1);
      }
    }
  }

  lemma {:induction false} ChainAsksAnswered(envs: seq<Env>, st: State, step: nat)
    requires Ready(st)
    ensures forall k :: 0 <= k < |Chain(envs, st, step)| ==> ChatsAnswered(Chain(envs, st, step)[k].chats)
    decreases |envs|
  {
    if envs != [] {
      RunAsksAnswered(envs[0], st, step);
      var r := Run(envs[0], st, step);
      if r.end.Pausing? {
        ChainAsksAnswered(envs[1..], Restore(r.end.snap), r.end.snap.step);
      }
    }
  }

  predicate Follows(todo: seq<ToolCall>, m: Message, next: seq<ToolCall>) {
    OpenAfter(todo, m) == Some(next)
  }

  /** open[n] are the calls still open before message n. */
  predicate Traced(ms: seq<Message>, open: seq<seq<ToolCall>>) {
    && |open| == |ms| + 1
    && forall n {:trigger ms[n]} :: 0 <= n < |ms| ==> Follows(open[n], ms[n], open[n + 1])
  }

  lemma TracedAppend(ms: seq<Message>, open: seq<seq<ToolCall>>, m: Message, next: seq<ToolCall>)
    requires Traced(ms, open) && Follows(open[|ms|], m, next)
    ensures Traced(ms + [m], open + [next])
  {
  }

  lemma {:induction false} OpenTrace(ms: seq<Message>) returns (open: seq<seq<ToolCall>>)
    requires Open(ms).Some?
    ensures Traced(ms, open) && open[|ms|] == Open(ms).value
  {
    if ms == [] {
      open := [[]];
    } else {
      var n := |ms| - 1;
      var before := OpenTrace(ms[..n]);
      open := before + [Open(ms).value];
      TracedAppend(ms[..n], before, ms[n], Open(ms).value);
      assert ms == ms[..n] + [ms[n]];
    }
  }

  lemma FollowsAnswer(todo: seq<ToolCall>, m: Message, next: seq<ToolCall>)
    requires Follows(todo, m, next) && todo != []
    ensures Answers(m, todo[0]) && next == todo[1..]
  {
  }

  lemma FollowsNothing(m: Message, next: seq<ToolCall>)
    requires Follows([], m, next)
    ensures m.role != "tool" || m.calls != []
  {
  }

  lemma FollowsCalls(todo: seq<ToolCall>, m: Message, next: seq<ToolCall>)
    requires Follows(todo, m, next) && m.calls != []
    ensures next == Usable(m.calls)
  {
  }

  /** One answer per call right after message i, in call order, and no further tool message. */
  predicate AnsweredBlock(ms: seq<Message>, i: nat, todo: seq<ToolCall>) {
    && i + |todo| < |ms|
    && (forall k :: 0 <= k < |todo| ==> Answers(ms[i + 1 + k], todo[k]))
    && (i + 1 + |todo| < |ms| ==>
          ms[i + 1 + |todo|].role != "tool" || ms[i + 1 + |todo|].calls != [])
  }

  lemma {:induction false} OpenInBlock(ms: seq<Message>, open: seq<seq<ToolCall>>, lo: nat, j: nat)
    requires Traced(ms, open) && lo + j <= |ms| && j <= |open[lo]|
    ensures open[lo + j] == open[lo][j..]
    decreases j
  {
    if j > 0 {
      OpenInBlock(ms, open, lo, j - 1);
      FollowsAnswer(open[lo + j - 1], ms[lo + j - 1], open[lo + j]);
    }
  }

  lemma BlockIsAnswered(ms: seq<Message>, open: seq<seq<ToolCall>>, i: nat, todo: seq<ToolCall>)
    requires Traced(ms, open) && open[|ms|] == [] && i < |ms| && open[i + 1] == todo
    ensures AnsweredBlock(ms, i, todo)
  {
    if i + |todo| >= |ms| {
      OpenInBlock(ms, open, i + 1, |ms| - i - 1);
    }
    forall k | 0 <= k < |todo| ensures Answers(ms[i + 1 + k], todo[k]) {
      OpenInBlock(ms, open, i + 1, k);
      FollowsAnswer(open[i + 1 + k], ms[i + 1 + k], open[i + 2 + k]);
    }
    var n := i + 1 + |todo|;
    if n < |ms| {
      OpenInBlock(ms, open, i + 1, |todo|);
      FollowsNothing(ms[n], open[n + 1]);
    }
  }

  /** What AllAnswered says, message by message: an assistant message with calls is followed
      at once by one answer per usable call; with proper names and trimmed ids that is one
      answer per call, under its own id. */
  lemma AllAnsweredMeans(ms: seq<Message>, i: nat)
    requires AllAnswered(ms) && i < |ms| && ms[i].calls != []
    ensures AnsweredBlock(ms, i, Usable(ms[i].calls))
    ensures WellNamed(ms[i].calls) ==>
              && |Usable(ms[i].calls)| == |ms[i].calls|
              && forall k :: 0 <= k < |ms[i].calls| ==> Usable(ms[i].calls)[k].id == ms[i].calls[k].id
  {
    var open := OpenTrace(ms);
    FollowsCalls(open[i], ms[i], open[i + 1]);
    BlockIsAnswered(ms, open, i, Usable(ms[i].calls));
    if WellNamed(ms[i].calls) {
      UsableKeepsAll(ms[i].calls);
    }
  }
}
