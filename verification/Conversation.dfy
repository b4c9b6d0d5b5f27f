/** The tool-calling conversation of `remote_terminal/brain.py`: one session, its pauses and its resumptions.
    The model, the tools, the clock-like id source and the summariser are oracles: the k-th call of each returns
    the k-th entry of an arbitrary sequence, so a statement over every `World` is one over every behaviour. */
module Conversation {
  import opened Prelude
  import opened History
  import opened ForceFix
  import opened SummaryCut

  datatype ModelResult = Answer(text: string, calls: seq<ToolCall>) | BadRequest | ModelError

  /** A result that asks for approval may name the tool to run; without a name it is the tool of the call. */
  datatype ToolResult = Done(output: string) | NeedsApproval(command: string, tool: Option<string>) | ToolError

  /** What dispatching `delegate_to_claude` again comes to: a function to run, none, or an exception. */
  datatype Delegation = Delegated | Undelegated | DispatchError

  /** `line` says whether a streaming client still listens when a pause is announced. */
  datatype World = World(
    model: nat -> ModelResult,
    tool: nat -> ToolResult,
    exec: nat -> Option<string>,
    delegate: nat -> Delegation,
    digest: nat -> Option<string>,
    uuid: nat -> string,
    line: nat -> bool,
    order: Order)

  datatype Config = Config(maxSteps: int, stepWarning: int, keepTurns: nat, maxChars: nat)

  /** What waits for the user: a command of a tool call, or leave to go on after many steps. */
  datatype Pending =
    | ToolPause(cid: string, command: string, tool: string, call: ToolCall, step: nat)
    | StepPause(cid: string, step: nat)

  datatype Request = Say(text: string) | Confirm(id: string, action: string)

  /** What an observer of the session sees: histories handed to the model, confirmations that met their
      record, and commands run on approval. */
  datatype Event =
    | Sent(step: nat, retry: bool, history: seq<Message>)
    | Resumed(pause: Pending, action: string)
    | Executed(cid: string, command: string)

  datatype Conv = Conv(
    messages: seq<Message>,
    pending: Option<Pending>,
    acked: int,
    summary: string,
    models: nat, tools: nat, execs: nat, digests: nat, uuids: nat,
    trace: seq<Event>)

  /** What the user is asked to confirm. */
  datatype Shown = Command(text: string) | Steps(count: nat)

  datatype Outcome = Finished | Awaiting(cid: string, shown: Shown) | Refused | Raised
  datatype Flow = Continue | Stop(outcome: Outcome)

  const START := Conv([], None, 0, "", 0, 0, 0, 0, 0, [])
  const EMPTY_COMMAND := "(空命令)"
  const PHONE_FAILED := "phone_act failed"

  function Denied(command: string): string {
    "⚠️ 用户拒绝了此命令的执行。原命令: " + command + "\n拒绝原因: 用户手动否决。请尝试其他方法完成目标。"
  }

  // ---- one model round ----

  function AnswerTurn(r: ModelResult): Option<Turn> {
    if r.Answer? then Some(Assistant(r.text, r.calls)) else None
  }

  /** Repairs the history and asks the model; after a 400 it fixes the history harder and asks once more. */
  function Ask(w: World, c: Conv, step: nat): (Conv, Option<Turn>) {
    var h := Repaired(c.messages, w.order);
    var c1 := Send(c, step, false, h);
    if w.model(c.models).BadRequest? then
      (Send(c1, step, true, ForceFixed(h)), AnswerTurn(w.model(c1.models)))
    else
      (c1, AnswerTurn(w.model(c.models)))
  }

  function Send(c: Conv, step: nat, retry: bool, h: seq<Message>): Conv {
    c.(messages := h, models := c.models + 1, trace := c.trace + [Sent(step, retry, h)])
  }

  /** The calls of one answer, in order; the first that needs approval pauses the session. */
  function RunCalls(w: World, c: Conv, calls: seq<ToolCall>, step: nat): (Conv, Flow)
    decreases |calls|
  {
    if calls == [] then (c, Continue) else
    var c1 := c.(tools := c.tools + 1);
    match w.tool(c.tools)
    case ToolError => (c1, Stop(Raised))
    case NeedsApproval(command, tool) =>
      var cid := w.uuid(c.uuids);
      var name := if tool.Some? then tool.value else calls[0].name;
      var p := ToolPause(cid, command, name, calls[0], step);
      (c1.(uuids := c.uuids + 1, pending := Some(p)), Stop(Awaiting(cid, Command(command))))
    case Done(output) =>
      RunCalls(w, c1.(messages := c.messages + [Tool(Reply(calls[0].id, output))]), calls[1..], step)
  }

  function Round(w: World, c: Conv, step: nat): (Conv, Flow) {
    var (c1, turn) := Ask(w, c, step);
    if turn.None? then (c1, Stop(Raised)) else
    var c2 := c1.(messages := c1.messages + [Spoken(turn.value)]);
    if turn.value.Assistant? && turn.value.calls != [] then RunCalls(w, c2, turn.value.calls, step)
    else (c2, Stop(Finished))
  }

  /** Rounds from `step` on, until an answer without calls, a pause, an error or the step limit. */
  function Loop(w: World, cfg: Config, c: Conv, step: nat): (Conv, Outcome)
    decreases cfg.maxSteps - step
  {
    if step >= cfg.maxSteps then (c, Finished)
    else if cfg.stepWarning > 0 && step - c.acked >= cfg.stepWarning then
      var cid := w.uuid(c.uuids);
      (c.(uuids := c.uuids + 1, pending := Some(StepPause(cid, step))), Awaiting(cid, Steps(step)))
    else
      match Round(w, c, step)
      case (c1, Stop(outcome)) => (c1, outcome)
      case (c1, Continue) => Loop(w, cfg, c1, step + 1)
  }

  // ---- requests ----

  function Chars(ms: seq<Message>): nat {
    if ms == [] then 0 else
    var n := |ms| - 1;
    Chars(ms[..n]) + match ms[n] case Spoken(t) => |t.text| case Tool(r) => |r.output|
  }

  predicate TooLong(cfg: Config, ms: seq<Message>) {
    Chars(ms) > cfg.maxChars && |UserIndexes(ms)| > cfg.keepTurns
  }

  /** A summary takes the place of what comes before the cut; if it fails, the history stays as it is. */
  function Digested(w: World, c: Conv, cut: nat): Conv
    requires cut <= |c.messages|
  {
    var c1 := c.(digests := c.digests + 1);
    match w.digest(c.digests)
    case None => c1
    case Some(s) => c1.(summary := s, messages := c.messages[cut..])
  }

  function Summarised(w: World, cfg: Config, c: Conv): Conv {
    if TooLong(cfg, c.messages) then Digested(w, c, Cut(c.messages, cfg.keepTurns)) else c
  }

  /** Runs an approved command. None is an exception. */
  function Execute(w: World, c: Conv, p: Pending): (Conv, Option<string>)
    requires p.ToolPause?
  {
    var c1 := c.(execs := c.execs + 1, trace := c.trace + [Executed(p.cid, p.command)]);
    var output := w.exec(c.execs);
    if p.tool == "phone_act" then (c1, Some(if output.Some? then output.value else PHONE_FAILED))
    else if p.tool == "delegate_to_claude" then
      match w.delegate(c.execs)
      case DispatchError => (c1, None)
      case Delegated => (c1, output)
      case Undelegated => (c1, if p.command != "" then output else Some(EMPTY_COMMAND))
    else if p.command != "" then (c1, output)
    else (c, Some(EMPTY_COMMAND))
  }

  function Resume(w: World, cfg: Config, c: Conv, p: Pending, action: string): (Conv, Outcome) {
    var c1 := c.(trace := c.trace + [Resumed(p, action)]);
    match p
    case StepPause(_, step) =>
      if action == "approve" then Loop(w, cfg, c1.(acked := step), step) else (c1, Finished)
    case ToolPause(_, command, _, call, step) =>
      var (c2, output) := if action == "approve" then Execute(w, c1, p) else (c1, Some(Denied(command)));
      if output.None? then (c2, Raised)
      else Loop(w, cfg, c2.(messages := c2.messages + [Tool(Reply(call.id, output.value))]), step)
  }

  function RunTurn(w: World, cfg: Config, c: Conv, req: Request): (Conv, Outcome) {
    match req
    case Confirm(id, action) =>
      var c1 := c.(pending := None);
      if c.pending.None? || c.pending.value.cid != id then (c1, Refused)
      else Resume(w, cfg, c1, c.pending.value, action)
    case Say(text) =>
      Loop(w, cfg, Summarised(w, cfg, c.(messages := c.messages + [Spoken(User(text))])), 0)
  }

  /** A whole run: any sequence of requests, one after the other. */
  function Run(w: World, cfg: Config, c: Conv, reqs: seq<Request>): Conv {
    if reqs == [] then c else
    var n := |reqs| - 1;
    RunTurn(w, cfg, Run(w, cfg, c, reqs[..n]), reqs[n]).0
  }
}
