/** The session object and the methods that change it, proved against the functions of Conversation. */
module Sessions {
  import opened Prelude
  import opened History
  import opened SummaryCut
  import opened MessageLists
  import opened Conversation

  class Session {
    const w: World
    const cfg: Config
    var messages: MessageList
    var pending: Option<Pending>
    var acked: int
    var summary: string
    // how many answers each oracle has given
    var models: nat
    var tools: nat
    var execs: nat
    var digests: nat
    var uuids: nat
    ghost var trace: seq<Event>

    ghost function State(): Conv
      reads this, messages
    {
      Conv(messages.items, pending, acked, summary, models, tools, execs, digests, uuids, trace)
    }

    constructor (w: World, cfg: Config)
      ensures State() == START && this.w == w && this.cfg == cfg && fresh(messages)
    {
      this.w, this.cfg := w, cfg;
      messages := new MessageList([]);
      pending, acked, summary := None, 0, "";
      models, tools, execs, digests, uuids, trace := 0, 0, 0, 0, 0, [];
    }

    method CallModel(step: nat, retry: bool) returns (r: ModelResult)
      modifies this
      ensures messages == old(messages)
      ensures State() == Send(old(State()), step, retry, messages.items)
      ensures r == w.model(old(models))
    {
      r := w.model(models);
      models := models + 1;
      trace := trace + [Sent(step, retry, messages.items)];
    }

    method AskModel(step: nat) returns (turn: Option<Turn>)
      requires Enumerates(w.order)
      modifies this, messages
      ensures messages == old(messages)
      ensures (State(), turn) == Ask(w, old(State()), step)
    {
      var _ := messages.RepairHistory(w.order);
      var r := CallModel(step, false);
      if r.BadRequest? {
        messages.ForceFixHistory();
        r := CallModel(step, true);
      }
      turn := AnswerTurn(r);
    }

    method RunToolCalls(calls: seq<ToolCall>, step: nat) returns (flow: Flow)
      modifies this, messages
      ensures messages == old(messages)
      ensures (State(), flow) == RunCalls(w, old(State()), calls, step)
    {
      for i := 0 to |calls|
        invariant messages == old(messages)
        invariant RunCalls(w, old(State()), calls, step) == RunCalls(w, State(), calls[i..], step)
      {
        var r := w.tool(tools);
        tools := tools + 1;
        match r {
          case ToolError =>
            return Stop(Raised);
          case NeedsApproval(command, tool) =>
            var cid := w.uuid(uuids);
            uuids := uuids + 1;
            var name := if tool.Some? then tool.value else calls[i].name;
            pending := Some(ToolPause(cid, command, name, calls[i], step));
            return Stop(Awaiting(cid, Command(command)));
          case Done(output) =>
            messages.Add(Tool(Reply(calls[i].id, output)));
        }
      }
      return Continue;
    }

    method OneRound(step: nat) returns (flow: Flow)
      requires Enumerates(w.order)
      modifies this, messages
      ensures messages == old(messages)
      ensures (State(), flow) == Round(w, old(State()), step)
    {
      var turn := AskModel(step);
      if turn.None? {
        return Stop(Raised);
      }
      messages.Add(Spoken(turn.value));
      if turn.value.Assistant? && turn.value.calls != [] {
        flow := RunToolCalls(turn.value.calls, step);
      } else {
        flow := Stop(Finished);
      }
    }

    method WarnSteps(step: nat) returns (cid: string)
      modifies this
      ensures messages == old(messages)
      ensures State() == old(State()).(uuids := old(uuids) + 1, pending := Some(StepPause(cid, step)))
      ensures cid == w.uuid(old(uuids))
    {
      cid := w.uuid(uuids);
      uuids := uuids + 1;
      pending := Some(StepPause(cid, step));
    }

    method ContinueLoop(stepsUsed: nat) returns (out: Outcome)
      requires Enumerates(w.order)
      modifies this, messages
      ensures messages == old(messages)
      ensures (State(), out) == Loop(w, cfg, old(State()), stepsUsed)
    {
      var step := stepsUsed;
      ghost var goal := Loop(w, cfg, State(), stepsUsed);
      while step < cfg.maxSteps + 1
        invariant messages == old(messages)
        invariant goal == Loop(w, cfg, State(), step)
      {
        if step >= cfg.maxSteps {
          return Finished;
        }
        var flow := OneStep(step, goal);
        if flow.Stop? {
          return flow.outcome;
        }
        step := step + 1;
      }
      out := Finished;
    }

    /** One pass of the loop: a pause for leave to go on, or a round. */
    method OneStep(step: nat, ghost goal: (Conv, Outcome)) returns (flow: Flow)
      requires Enumerates(w.order) && step < cfg.maxSteps
      requires goal == Loop(w, cfg, State(), step)
      modifies this, messages
      ensures messages == old(messages)
      ensures goal == if flow.Stop? then (State(), flow.outcome) else Loop(w, cfg, State(), step + 1)
    {
      if cfg.stepWarning > 0 && step - acked >= cfg.stepWarning {
        var cid := WarnSteps(step);
        flow := Stop(Awaiting(cid, Steps(step)));
      } else {
        flow := OneRound(step);
      }
    }

    method MaybeSummarize()
      modifies this
      ensures messages == old(messages) || fresh(messages)
      ensures State() == Summarised(w, cfg, old(State()))
    {
      var total := CountChars();
      if total <= cfg.maxChars {
        return;
      }
      var users := FindUsers();
      if |users| <= cfg.keepTurns {
        return;
      }
      var cut := if cfg.keepTurns == 0 then users[0] else users[|users| - cfg.keepTurns];
      assert cut == Cut(messages.items, cfg.keepTurns);
      Digest(cut);
    }

    /** Asks for a summary of what comes before the cut; on failure the history stays as it is. */
    method Digest(cut: nat)
      requires cut <= |messages.items|
      modifies this
      ensures messages == old(messages) || fresh(messages)
      ensures State() == Digested(w, old(State()), cut)
    {
      var s := w.digest(digests);
      digests := digests + 1;
      if s.Some? {
        summary := s.value;
        messages := new MessageList(messages.items[cut..]);
      }
    }

    method CountChars() returns (total: nat)
      ensures total == Chars(messages.items)
    {
      var ms := messages.items;
      total := 0;
      for i := 0 to |ms|
        invariant total == Chars(ms[..i])
      {
        assert ms[..i + 1][..i] == ms[..i];
        total := total + match ms[i] case Spoken(t) => |t.text| case Tool(r) => |r.output|;
      }
      assert ms[..|ms|] == ms;
    }

    method FindUsers() returns (users: seq<nat>)
      ensures users == UserIndexes(messages.items)
    {
      var ms := messages.items;
      users := [];
      for i := 0 to |ms|
        invariant users == UserIndexes(ms[..i])
      {
        assert ms[..i + 1][..i] == ms[..i];
        if ms[i].IsUser() {
          users := users + [i];
        }
      }
      assert ms[..|ms|] == ms;
    }

    method ExecuteApproved(p: Pending) returns (output: Option<string>)
      requires p.ToolPause?
      modifies this
      ensures messages == old(messages)
      ensures (State(), output) == Execute(w, old(State()), p)
    {
      if p.tool != "phone_act" && p.tool != "delegate_to_claude" && p.command == "" {
        return Some(EMPTY_COMMAND);
      }
      trace := trace + [Executed(p.cid, p.command)];
      var k := execs;
      execs := execs + 1;
      output := w.exec(k);
      if p.tool == "phone_act" && output.None? {
        output := Some(PHONE_FAILED);
      }
      if p.tool == "delegate_to_claude" {
        match w.delegate(k) {
          case DispatchError => output := None;
          case Delegated =>
          case Undelegated => output := if p.command != "" then output else Some(EMPTY_COMMAND);
        }
      }
    }

    /** A confirmation that met its record. */
    method ResumePaused(p: Pending, action: string) returns (out: Outcome)
      requires Enumerates(w.order)
      modifies this, messages
      ensures messages == old(messages)
      ensures (State(), out) == Resume(w, cfg, old(State()), p, action)
    {
      trace := trace + [Resumed(p, action)];
      match p {
        case StepPause(_, step) =>
          if action == "approve" {
            acked := step;
            out := ContinueLoop(step);
          } else {
            out := Finished;
          }
        case ToolPause(_, command, _, call, step) =>
          var output := Some(Denied(command));
          if action == "approve" {
            output := ExecuteApproved(p);
          }
          if output.None? {
            return Raised;
          }
          messages.Add(Tool(Reply(call.id, output.value)));
          out := ContinueLoop(step);
      }
    }

    method Turn(req: Request) returns (out: Outcome)
      requires Enumerates(w.order)
      modifies this, messages
      ensures messages == old(messages) || fresh(messages)
      ensures (State(), out) == RunTurn(w, cfg, old(State()), req)
    {
      match req {
        case Confirm(id, action) =>
          var p := pending;
          pending := None;
          if p.None? || p.value.cid != id {
            return Refused;
          }
          out := ResumePaused(p.value, action);
        case Say(text) =>
          messages.Add(Spoken(User(text)));
          MaybeSummarize();
          out := ContinueLoop(0);
      }
    }
  }
}
