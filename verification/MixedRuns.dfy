/** Runs that mix plain requests with streaming ones, whose pauses are answered inside the paused answer.
    Between two waits one request works at a time. A confirmation that wakes a waiting stream, and what the stream
    then does until it next waits or ends, is one step; Handshake takes these steps apart. */
module MixedRuns {
  import opened Prelude
  import opened History
  import opened Conversation
  import opened PairingSafety
  import opened Resumption

  /** Where a stream waits: at a call, with the calls of the answer still to come, or at a step warning.
      `warned` is the acknowledged step that it read when it started. */
  datatype Frame =
    | AtCall(call: ToolCall, rest: seq<ToolCall>, command: string, step: nat, warned: int)
    | AtWarning(step: nat, warned: int)

  /** `event` names the stream whose wake-up event is stored. */
  datatype Mixed = Mixed(c: Conv, event: Option<nat>, frames: seq<Option<Frame>>)

  datatype Action =
    | PlainMessage(text: string)
    | StreamMessage(t: nat, text: string)
    | Answered(id: string, action: string)
    | TimeUp(t: nat)

  datatype Halt = Goes | Ends | Waits(frame: Frame)

  function TimedOut(command: string): string { "⚠️ 确认超时,命令未执行: " + command }

  // ---- the streaming loop ----

  function StreamCalls(w: World, c: Conv, calls: seq<ToolCall>, step: nat, warned: int): (Conv, Halt)
    decreases |calls|
  {
    if calls == [] then (c, Goes) else
    var c1 := c.(tools := c.tools + 1);
    match w.tool(c.tools)
    case ToolError => (c1, Ends)
    case NeedsApproval(command, tool) =>
      var name := if tool.Some? then tool.value else calls[0].name;
      var p := ToolPause(w.uuid(c.uuids), command, name, calls[0], step);
      (c1.(uuids := c.uuids + 1, pending := Some(p)), Waits(AtCall(calls[0], calls[1..], command, step, warned)))
    case Done(output) =>
      StreamCalls(w, c1.(messages := c.messages + [Tool(Reply(calls[0].id, output))]), calls[1..], step, warned)
  }

  function StreamRound(w: World, c: Conv, step: nat, warned: int): (Conv, Halt) {
    var (c1, turn) := Ask(w, c, step);
    if turn.None? then (c1, Ends) else
    var c2 := c1.(messages := c1.messages + [Spoken(turn.value)]);
    if turn.value.Assistant? && turn.value.calls != [] then StreamCalls(w, c2, turn.value.calls, step, warned)
    else (c2, Ends)
  }

  function StreamLoop(w: World, cfg: Config, c: Conv, step: nat, warned: int): (Conv, Halt)
    decreases cfg.maxSteps - step
  {
    if step >= cfg.maxSteps then (c, Ends)
    else if cfg.stepWarning > 0 && step - warned >= cfg.stepWarning then
      (c.(uuids := c.uuids + 1, pending := Some(StepPause(w.uuid(c.uuids), step))), Waits(AtWarning(step, warned)))
    else
      var (c1, halt) := StreamRound(w, c, step, warned);
      if halt.Goes? then StreamLoop(w, cfg, c1, step + 1, warned) else (c1, halt)
  }

  /** The calls that are left, and then the loop. */
  function StreamOn(w: World, cfg: Config, c: Conv, rest: seq<ToolCall>, step: nat, warned: int): (Conv, Halt) {
    var (c1, halt) := StreamCalls(w, c, rest, step, warned);
    if halt.Goes? then StreamLoop(w, cfg, c1, step + 1, warned) else (c1, halt)
  }

  /** A stream that waits has stored its event, and stays if its client hears of the pause. */
  function Parked(w: World, m: Mixed, t: nat, out: (Conv, Halt)): Mixed
    requires t < |m.frames|
  {
    var (c, halt) := out;
    if halt.Waits? then
      var stays := w.line(if c.uuids > 0 then c.uuids - 1 else 0);
      Mixed(c, Some(t), m.frames[t := if stays then Some(halt.frame) else None])
    else Mixed(c, m.event, m.frames[t := None])
  }

  // ---- waking up ----

  /** What a stream tells the model of the call it waited at, given the record it finds. None is an exception.
      `action` is None when the wait timed out. */
  function WakeOutput(w: World, c: Conv, f: Frame, p: Option<Pending>, action: Option<string>): (Conv, Option<string>)
    requires f.AtCall?
  {
    if action.None? || p.None? then (c, Some(TimedOut(f.command)))
    else if action.value != "approve" then (c, Some(Denied(f.command)))
    else
      var tool := if p.value.ToolPause? then p.value.tool else "run_command";
      Execute(w, c, ToolPause(p.value.cid, f.command, tool, f.call, f.step))
  }

  function Wake(w: World, cfg: Config, m: Mixed, t: nat, action: Option<string>): Mixed
    requires t < |m.frames| && m.frames[t].Some?
  {
    var p := m.c.pending;
    var c := m.c.(pending := None);
    var m1 := m.(event := None);
    match m.frames[t].value
    case AtWarning(step, warned) =>
      if action == Some("approve") && p.Some? then
        Parked(w, m1, t, StreamLoop(w, cfg, c.(acked := step), step + 1, warned))
      else Parked(w, m1, t, (c, Ends))
    case AtCall(call, rest, command, step, warned) =>
      var (c1, output) := WakeOutput(w, c, m.frames[t].value, p, action);
      if output.None? then Parked(w, m1, t, (c1, Ends)) else
      var c2 := c1.(messages := c1.messages + [Tool(Reply(call.id, output.value))]);
      Parked(w, m1, t, StreamOn(w, cfg, c2, rest, step, warned))
  }

  // ---- steps and runs ----

  /** An action that is not possible changes nothing. */
  function Step(w: World, cfg: Config, m: Mixed, a: Action): Mixed {
    match a
    case PlainMessage(text) => m.(c := RunTurn(w, cfg, m.c, Say(text)).0)
    case StreamMessage(t, text) =>
      if t >= |m.frames| || m.frames[t].Some? then m else
      var c := Summarised(w, cfg, m.c.(messages := m.c.messages + [Spoken(User(text))]));
      Parked(w, m, t, StreamLoop(w, cfg, c, 0, c.acked))
    case Answered(id, action) =>
      if m.event.None? then m.(c := RunTurn(w, cfg, m.c, Confirm(id, action)).0)
      else if m.event.value < |m.frames| && m.frames[m.event.value].Some? then
        Wake(w, cfg, m, m.event.value, Some(action))
      else m.(event := None)
    case TimeUp(t) => if t < |m.frames| && m.frames[t].Some? then Wake(w, cfg, m, t, None) else m
  }

  function Init(n: nat): Mixed { Mixed(START, None, seq(n, i => None)) }

  /** A run of n streams beside plain requests. */
  function MixedRun(w: World, cfg: Config, n: nat, actions: seq<Action>): Mixed {
    if actions == [] then Init(n) else
    var k := |actions| - 1;
    Step(w, cfg, MixedRun(w, cfg, n, actions[..k]), actions[k])
  }

  // ---- the calls a stream owes replies to ----

  /** These calls came from one answer, and none has a reply yet if the open turn offers it. */
  ghost predicate Owed(w: World, c: Conv, calls: seq<ToolCall>) {
    && DistinctCalls(calls)
    && forall i :: 0 <= i < |calls| ==>
         && Known(w, c.models, calls[i].id)
         && (calls[i].id in Open(c.messages).Offered() ==> calls[i].id !in ReplyIds(Open(c.messages).replies))
  }

  /** A loop may run: the history is sound and no pending call is on offer. */
  ghost predicate Running(w: World, c: Conv) {
    SoundHistory(w, c.models, c.messages) && Quiet(w, c) && SentPaired(c.trace)
  }

  /** How a stream may stop: as before, or waiting at a call that it owes a reply to, like those after it. */
  ghost predicate Halted(w: World, d: Conv, halt: Halt) {
    && SoundHistory(w, d.models, d.messages) && SentPaired(d.trace)
    && (halt.Waits? && halt.frame.AtCall? ==>
          Owed(w, d, [halt.frame.call] + halt.frame.rest) && SoundPending(w, d))
    && (!(halt.Waits? && halt.frame.AtCall?) ==> Quiet(w, d))
  }

  /** The first of the owed calls is replied to: the others are still owed. */
  lemma OneReplied(w: World, c: Conv, calls: seq<ToolCall>, output: string)
    requires Running(w, c) && Owed(w, c, calls) && calls != []
    ensures var d := c.(messages := c.messages + [Tool(Reply(calls[0].id, output))]);
      Running(w, d) && Owed(w, d, calls[1..])
  {
    var r := Reply(calls[0].id, output);
    ReplyAppended(w, c.models, c.messages, r);
    OpenWith(c.messages, r);
    ReplyIdsSnoc(Open(c.messages).replies, r);
    assert forall i :: 0 <= i < |calls[1..]| ==> calls[1..][i] == calls[i + 1];
  }

  /** A call that needs approval is the one the record names, and it is owed a reply. */
  lemma CallPauses(w: World, c: Conv, d: Conv, calls: seq<ToolCall>, f: Frame)
    requires Running(w, c) && Owed(w, c, calls) && calls != []
    requires f.AtCall? && f.call == calls[0] && f.rest == calls[1..]
    requires d.messages == c.messages && d.models == c.models && d.trace == c.trace
    requires d.pending.Some? && d.pending.value.ToolPause? && d.pending.value.call == calls[0]
    ensures Halted(w, d, Waits(f))
  {
    assert [calls[0]] + calls[1..] == calls;
  }

  lemma {:induction false} StreamCallsKeeps(w: World, c: Conv, calls: seq<ToolCall>, step: nat, warned: int)
    requires Running(w, c) && Owed(w, c, calls)
    ensures var (d, halt) := StreamCalls(w, c, calls, step, warned);
      Halted(w, d, halt) && (halt.Goes? ==> Running(w, d))
    decreases |calls|
  {
    if calls != [] {
      match w.tool(c.tools)
      case ToolError =>
      case NeedsApproval(_, _) =>
        var (d, halt) := StreamCalls(w, c, calls, step, warned);
        CallPauses(w, c, d, calls, halt.frame);
      case Done(output) =>
        OneReplied(w, c, calls, output);
        var d := c.(messages := c.messages + [Tool(Reply(calls[0].id, output))]);
        StreamCallsKeeps(w, d.(tools := c.tools + 1), calls[1..], step, warned);
    }
  }

  lemma StreamRoundKeeps(w: World, c: Conv, step: nat, warned: int)
    requires Enumerates(w.order) && FreshCalls(w) && Running(w, c)
    ensures var (d, halt) := StreamRound(w, c, step, warned);
      Halted(w, d, halt) && (halt.Goes? ==> Running(w, d))
  {
    var k := AskShape(w, c, step);
    var (c1, turn) := Ask(w, c, step);
    RepairSound(w, c.models, c.messages);
    AskSentPaired(c.trace, c1.trace, step, c1.messages);
    KnownLater(w, c.models, c1.models, c1.messages);
    if c.pending.Some? && c.pending.value.ToolPause? {
      KnownMono(w, c.models, c1.models, c.pending.value.call.id);
    }
    if turn.Some? {
      var c2 := c1.(messages := c1.messages + [Spoken(turn.value)]);
      AnswerOwed(w, c, c1, k);
      StreamCallsKeeps(w, c2, turn.value.calls, step, warned);
    }
  }

  /** A fresh answer owes replies to all its calls, and offers none of the calls asked before. */
  lemma AnswerOwed(w: World, c: Conv, c1: Conv, k: nat)
    requires FreshCalls(w) && w.model(k).Answer? && c.models <= k < c1.models
    requires Running(w, c1) && Quiet(w, c) && c1.pending == c.pending
    ensures var c2 := c1.(messages := c1.messages + [Spoken(AnswerTurn(w.model(k)).value)]);
      Running(w, c2) && Owed(w, c2, w.model(k).calls)
  {
    var turn := AnswerTurn(w.model(k));
    var b := AnswerBlock(w, k, []);
    SpokenSound(w, c1.models, c1.messages, turn.value, k);
    CallsKnown(w, k, c1.models);
    if c.pending.Some? && c.pending.value.ToolPause? {
      KnownMono(w, c.models, k, c.pending.value.call.id);
    }
  }

  lemma CallsKnown(w: World, k: nat, models: nat)
    requires w.model(k).Answer? && k < models && Named(w.model(k).calls)
    ensures forall i :: 0 <= i < |w.model(k).calls| ==> Known(w, models, w.model(k).calls[i].id)
  {
    forall i | 0 <= i < |w.model(k).calls|
      ensures Known(w, models, w.model(k).calls[i].id)
    {
      assert w.model(k).calls[i] in w.model(k).calls && w.model(k).calls[i].id in CallIds(w.model(k).calls);
    }
  }

  /** The turn of the k-th answer opens a sound block. */
  lemma SpokenSound(w: World, models: nat, ms: seq<Message>, turn: Turn, k: nat)
    requires FreshCalls(w) && w.model(k).Answer? && k < models && turn == AnswerTurn(w.model(k)).value
    requires SoundHistory(w, models, ms)
    ensures SoundHistory(w, models, ms + [Spoken(turn)]) && Open(ms + [Spoken(turn)]) == Block(Some(turn), [])
  {
    var b := AnswerBlock(w, k, []);
    BlocksSnoc(ms, Spoken(turn));
    forall id | id in b.Offered() { KnownMono(w, k + 1, models, id); }
    assert SoundBlock(w, models, b);
    forall i | 0 <= i < |Blocks(ms)|
      ensures SoundBlock(w, models, Blocks(ms)[i])
    {
    }
  }

  lemma {:induction false} StreamLoopKeeps(w: World, cfg: Config, c: Conv, step: nat, warned: int)
    requires Enumerates(w.order) && FreshCalls(w) && Running(w, c)
    ensures var (d, halt) := StreamLoop(w, cfg, c, step, warned); Halted(w, d, halt)
    decreases cfg.maxSteps - step
  {
    if step < cfg.maxSteps && !(cfg.stepWarning > 0 && step - warned >= cfg.stepWarning) {
      StreamRoundKeeps(w, c, step, warned);
      var (c1, halt) := StreamRound(w, c, step, warned);
      if halt.Goes? {
        StreamLoopKeeps(w, cfg, c1, step + 1, warned);
      }
    }
  }

  lemma StreamOnKeeps(w: World, cfg: Config, c: Conv, rest: seq<ToolCall>, step: nat, warned: int)
    requires Enumerates(w.order) && FreshCalls(w) && Running(w, c) && Owed(w, c, rest)
    ensures var (d, halt) := StreamOn(w, cfg, c, rest, step, warned); Halted(w, d, halt)
  {
    StreamCallsKeeps(w, c, rest, step, warned);
    var (c1, halt) := StreamCalls(w, c, rest, step, warned);
    if halt.Goes? {
      StreamLoopKeeps(w, cfg, c1, step + 1, warned);
    }
  }

  // ---- one stream at a time ----

  /** A waiting stream has its event stored, and owes replies to the calls it has left. */
  ghost predicate MixedInv(w: World, m: Mixed) {
    && |m.frames| <= 1 && Inv(w, m.c)
    && forall t :: 0 <= t < |m.frames| && m.frames[t].Some? ==>
         && m.event == Some(t)
         && (m.frames[t].value.AtCall? ==> Owed(w, m.c, [m.frames[t].value.call] + m.frames[t].value.rest))
  }

  lemma ParkedKeeps(w: World, m: Mixed, t: nat, out: (Conv, Halt))
    requires |m.frames| == 1 && t == 0 && Halted(w, out.0, out.1)
    ensures MixedInv(w, Parked(w, m, t, out))
  {
  }

  /** With the record taken, nothing is pending. */
  lemma RecordTaken(w: World, c: Conv)
    requires Inv(w, c)
    ensures Running(w, c.(pending := None)) && Halted(w, c.(pending := None), Ends)
  {
  }

  lemma AckedRuns(w: World, c: Conv, step: nat)
    requires Running(w, c)
    ensures Running(w, c.(acked := step))
  {
  }

  lemma WarningWakes(w: World, cfg: Config, m: Mixed, t: nat, action: Option<string>)
    requires Enumerates(w.order) && FreshCalls(w) && MixedInv(w, m)
    requires t < |m.frames| && m.frames[t].Some? && m.frames[t].value.AtWarning?
    ensures MixedInv(w, Wake(w, cfg, m, t, action))
  {
    var c, m1, f := m.c.(pending := None), m.(event := None), m.frames[t].value;
    RecordTaken(w, m.c);
    if action == Some("approve") && m.c.pending.Some? {
      AckedRuns(w, c, f.step);
      StreamLoopKeeps(w, cfg, c.(acked := f.step), f.step + 1, f.warned);
      ParkedKeeps(w, m1, t, StreamLoop(w, cfg, c.(acked := f.step), f.step + 1, f.warned));
    } else {
      ParkedKeeps(w, m1, t, (c, Ends));
    }
  }

  lemma CallWakes(w: World, cfg: Config, m: Mixed, t: nat, action: Option<string>)
    requires Enumerates(w.order) && FreshCalls(w) && MixedInv(w, m)
    requires t < |m.frames| && m.frames[t].Some? && m.frames[t].value.AtCall?
    ensures MixedInv(w, Wake(w, cfg, m, t, action))
  {
    var c, m1, f := m.c.(pending := None), m.(event := None), m.frames[t].value;
    var (c1, output) := WakeOutput(w, c, f, m.c.pending, action);
    RecordTaken(w, m.c);
    WakeOutputKeeps(w, c, f, m.c.pending, action);
    if output.None? {
      ParkedKeeps(w, m1, t, (c1, Ends));
    } else {
      RestGoesOn(w, cfg, c1, f, output.value);
      var c2 := c1.(messages := c1.messages + [Tool(Reply(f.call.id, output.value))]);
      ParkedKeeps(w, m1, t, StreamOn(w, cfg, c2, f.rest, f.step, f.warned));
    }
  }

  lemma RestGoesOn(w: World, cfg: Config, c: Conv, f: Frame, output: string)
    requires Enumerates(w.order) && FreshCalls(w) && f.AtCall?
    requires Running(w, c) && Owed(w, c, [f.call] + f.rest)
    ensures var c2 := c.(messages := c.messages + [Tool(Reply(f.call.id, output))]);
      var (d, halt) := StreamOn(w, cfg, c2, f.rest, f.step, f.warned);
      Halted(w, d, halt)
  {
    OneReplied(w, c, [f.call] + f.rest, output);
    assert ([f.call] + f.rest)[1..] == f.rest;
    StreamOnKeeps(w, cfg, c.(messages := c.messages + [Tool(Reply(f.call.id, output))]), f.rest, f.step, f.warned);
  }

  lemma WakeKeeps(w: World, cfg: Config, m: Mixed, t: nat, action: Option<string>)
    requires Enumerates(w.order) && FreshCalls(w) && MixedInv(w, m)
    requires t < |m.frames| && m.frames[t].Some?
    ensures MixedInv(w, Wake(w, cfg, m, t, action))
  {
    if m.frames[t].value.AtWarning? {
      WarningWakes(w, cfg, m, t, action);
    } else {
      CallWakes(w, cfg, m, t, action);
    }
  }

  lemma WakeOutputKeeps(w: World, c: Conv, f: Frame, p: Option<Pending>, action: Option<string>)
    requires f.AtCall? && Running(w, c) && c.pending.None? && Owed(w, c, [f.call] + f.rest)
    ensures var c1 := WakeOutput(w, c, f, p, action).0;
      Running(w, c1) && c1.pending.None? && Owed(w, c1, [f.call] + f.rest)
  {
    if action.Some? && p.Some? && action.value == "approve" {
      var tool := if p.value.ToolPause? then p.value.tool else "run_command";
      var pause := ToolPause(p.value.cid, f.command, tool, f.call, f.step);
      ExecuteShape(w, c, pause);
      SentPairedSnoc(c.trace, Executed(pause.cid, pause.command));
    }
  }

  // ---- plain requests while a stream waits ----

  /** A call asked before, which the open turn does not offer. */
  ghost predicate Away(w: World, c: Conv, id: string) {
    Known(w, c.models, id) && id !in Open(c.messages).Offered()
  }

  /** No later turn offers such a call again. */
  lemma {:induction false} LoopAway(w: World, cfg: Config, c: Conv, step: nat, id: string)
    requires Enumerates(w.order) && FreshCalls(w) && Away(w, c, id)
    ensures Away(w, Loop(w, cfg, c, step).0, id)
    decreases cfg.maxSteps - step
  {
    if step < cfg.maxSteps && !(cfg.stepWarning > 0 && step - c.acked >= cfg.stepWarning) {
      RoundAway(w, c, step, id);
      if Round(w, c, step).1.Continue? {
        LoopAway(w, cfg, Round(w, c, step).0, step + 1, id);
      }
    }
  }

  lemma RoundAway(w: World, c: Conv, step: nat, id: string)
    requires Enumerates(w.order) && FreshCalls(w) && Away(w, c, id)
    ensures Away(w, Round(w, c, step).0, id)
  {
    var k, rs := RoundShape(w, c, step);
    KnownMono(w, c.models, k, id);
    KnownMono(w, c.models, Round(w, c, step).0.models, id);
    if w.model(k).Answer? {
      NewTurnAway(w, k, Repaired(c.messages, w.order), rs, id);
    } else {
      OpenRepaired(c.messages, w.order);
    }
  }

  lemma NewTurnAway(w: World, k: nat, h: seq<Message>, rs: seq<Reply>, id: string)
    requires FreshCalls(w) && w.model(k).Answer? && ReplyEach(rs, w.model(k).calls) && Known(w, k, id)
    ensures id !in Open(After(h, AnswerTurn(w.model(k)), rs)).Offered()
  {
    var b := AnswerBlock(w, k, rs);
    AfterBlocks(h, AnswerTurn(w.model(k)).value, rs);
  }

  /** The message as a request enters the loop: the user turn is open. */
  lemma SummarisedOpen(w: World, cfg: Config, c: Conv, text: string)
    requires SoundHistory(w, c.models, c.messages)
    ensures var e := Summarised(w, cfg, c.(messages := c.messages + [Spoken(User(text))]));
      && SoundHistory(w, e.models, e.messages) && Open(e.messages).Offered() == {}
      && e.pending == c.pending && e.models == c.models && e.trace == c.trace
  {
    var c1 := c.(messages := c.messages + [Spoken(User(text))]);
    UserAppended(w, c.models, c.messages, text);
    if TooLong(cfg, c1.messages) {
      CutSound(w, c.models, c1.messages, cfg.keepTurns);
    }
  }

  /** A stream that waits is owed to as before, whatever a plain message does meanwhile. */
  lemma MessageAway(w: World, cfg: Config, c: Conv, text: string, calls: seq<ToolCall>)
    requires Enumerates(w.order) && FreshCalls(w) && SoundHistory(w, c.models, c.messages) && Owed(w, c, calls)
    ensures Owed(w, RunTurn(w, cfg, c, Say(text)).0, calls)
  {
    var e := Summarised(w, cfg, c.(messages := c.messages + [Spoken(User(text))]));
    SummarisedOpen(w, cfg, c, text);
    forall i | 0 <= i < |calls| { LoopAway(w, cfg, e, 0, calls[i].id); }
  }

  lemma StepKeeps(w: World, cfg: Config, m: Mixed, a: Action)
    requires Enumerates(w.order) && FreshCalls(w) && MixedInv(w, m)
    ensures MixedInv(w, Step(w, cfg, m, a))
  {
    match a
    case PlainMessage(text) =>
      TurnKeeps(w, cfg, m.c, Say(text));
      forall t | 0 <= t < |m.frames| && m.frames[t].Some? && m.frames[t].value.AtCall?
        ensures Owed(w, RunTurn(w, cfg, m.c, Say(text)).0, [m.frames[t].value.call] + m.frames[t].value.rest)
      {
        MessageAway(w, cfg, m.c, text, [m.frames[t].value.call] + m.frames[t].value.rest);
      }
    case StreamMessage(t, text) =>
      if t < |m.frames| && m.frames[t].None? {
        SummarisedOpen(w, cfg, m.c, text);
        var c := Summarised(w, cfg, m.c.(messages := m.c.messages + [Spoken(User(text))]));
        StreamLoopKeeps(w, cfg, c, 0, c.acked);
        ParkedKeeps(w, m, t, StreamLoop(w, cfg, c, 0, c.acked));
      }
    case Answered(id, action) =>
      if m.event.None? {
        TurnKeeps(w, cfg, m.c, Confirm(id, action));
      } else if m.event.value < |m.frames| && m.frames[m.event.value].Some? {
        WakeKeeps(w, cfg, m, m.event.value, Some(action));
      }
    case TimeUp(t) =>
      if t < |m.frames| && m.frames[t].Some? {
        WakeKeeps(w, cfg, m, t, None);
      }
  }

  lemma {:induction false} MixedKeeps(w: World, cfg: Config, n: nat, actions: seq<Action>)
    requires Enumerates(w.order) && FreshCalls(w) && n <= 1
    ensures MixedInv(w, MixedRun(w, cfg, n, actions))
  {
    if actions == [] {
      assert Blocks([]) == [Block(None, [])];
    } else {
      var k := |actions| - 1;
      MixedKeeps(w, cfg, n, actions[..k]);
      StepKeeps(w, cfg, MixedRun(w, cfg, n, actions[..k]), actions[k]);
    }
  }

  /** Main result. Over every run that mixes plain requests with those of one stream, its pauses approved, denied,
      timed out or cut off, and overtaken by plain messages that may pause too: with fresh call ids every history
      sent, by the stream or not, has exactly one reply for each call and no other tool message. */
  lemma EverySentWellPairedMixed(w: World, cfg: Config, n: nat, actions: seq<Action>)
    requires Enumerates(w.order) && FreshCalls(w) && n <= 1
    ensures SentPaired(MixedRun(w, cfg, n, actions).c.trace)
  {
    MixedKeeps(w, cfg, n, actions);
  }

  // ---- the step warning of a stream ----

  /** Woken at a step warning a stream sends nothing, whatever the answer: it ends, or waits at the next step's. */
  lemma WarningStays(w: World, cfg: Config, m: Mixed, t: nat, action: Option<string>)
    requires t < |m.frames| && m.frames[t].Some? && m.frames[t].value.AtWarning?
    requires cfg.stepWarning > 0 && m.frames[t].value.step - m.frames[t].value.warned >= cfg.stepWarning
    ensures var d, f := Wake(w, cfg, m, t, action), m.frames[t].value;
      && d.c.trace == m.c.trace && d.c.messages == m.c.messages
      && |d.frames| == |m.frames|
      && (d.frames[t].Some? ==> d.frames[t].value == AtWarning(f.step + 1, f.warned))
  {
  }
}
