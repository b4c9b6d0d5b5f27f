/** What a stream does, beside the plain loop: the same until it first waits; and what each wake-up runs and says. */
module StreamMeaning {
  import opened Prelude
  import opened History
  import opened Conversation
  import opened PairingSafety
  import opened TraceSafety
  import opened RoundMeaning
  import opened MixedRuns

  // ---- the same as the plain loop, up to the first wait ----

  /** A stream stops as the plain loop does; where that returns to wait, the stream waits, at the same call or step. */
  predicate SameStop(d: Conv, stopped: bool, out: Outcome, halt: Halt, warned: int) {
    && (halt.Goes? <==> !stopped)
    && (halt.Waits? <==> stopped && out.Awaiting?)
    && (halt.Waits? ==> halt.frame.warned == warned && d.pending.Some? && d.pending.value.step == halt.frame.step)
    && (halt.Waits? && halt.frame.AtCall? ==>
          && out.shown == Command(halt.frame.command)
          && d.pending.value.ToolPause? && d.pending.value.call == halt.frame.call
          && d.pending.value.command == halt.frame.command)
    && (halt.Waits? && halt.frame.AtWarning? ==> out.shown == Steps(halt.frame.step) && d.pending.value.StepPause?)
  }

  function Ended(flow: Flow): Outcome { if flow.Stop? then flow.outcome else Finished }

  /** The n-th call is the one the stream waits at, and it has the calls after that left. */
  lemma {:induction false} CallsAlike(w: World, c: Conv, calls: seq<ToolCall>, step: nat, warned: int) returns (n: nat)
    ensures var (d, flow) := RunCalls(w, c, calls, step);
      var (e, halt) := StreamCalls(w, c, calls, step, warned);
      && e == d && SameStop(d, flow.Stop?, Ended(flow), halt, warned)
      && (halt.Waits? ==>
            && halt.frame.AtCall? && halt.frame.step == step
            && n < |calls| && halt.frame.call == calls[n] && halt.frame.rest == calls[n + 1..]
            && d.tools == c.tools + n + 1)
    decreases |calls|
  {
    n := 0;
    if calls != [] && w.tool(c.tools).Done? {
      var r := Reply(calls[0].id, w.tool(c.tools).output);
      var m := CallsAlike(w, c.(tools := c.tools + 1, messages := c.messages + [Tool(r)]), calls[1..], step, warned);
      TailAt(calls, m);
      n := m + 1;
    }
  }

  lemma TailAt<T>(s: seq<T>, m: nat)
    requires s != []
    ensures m < |s| - 1 ==> s[1..][m] == s[m + 1] && s[1..][m + 1..] == s[m + 2..]
  {
  }

  lemma RoundAlike(w: World, c: Conv, step: nat, warned: int)
    ensures var (d, flow) := Round(w, c, step);
      var (e, halt) := StreamRound(w, c, step, warned);
      e == d && SameStop(d, flow.Stop?, Ended(flow), halt, warned)
  {
    var (c1, turn) := Ask(w, c, step);
    if turn.Some? && turn.value.calls != [] {
      var n := CallsAlike(w, c1.(messages := c1.messages + [Spoken(turn.value)]), turn.value.calls, step, warned);
    }
  }

  /** The two loops do the same when the stream has read the step last acknowledged. */
  lemma {:induction false} LoopAlike(w: World, cfg: Config, c: Conv, step: nat)
    requires Enumerates(w.order)
    ensures var (d, out) := Loop(w, cfg, c, step);
      var (e, halt) := StreamLoop(w, cfg, c, step, c.acked);
      e == d && SameStop(d, true, out, halt, c.acked)
    decreases cfg.maxSteps - step
  {
    if step < cfg.maxSteps && !(cfg.stepWarning > 0 && step - c.acked >= cfg.stepWarning) {
      RoundAlike(w, c, step, c.acked);
      var k, rs := RoundShape(w, c, step);
      if Round(w, c, step).1.Continue? {
        LoopAlike(w, cfg, Round(w, c, step).0, step + 1);
      }
    }
  }

  /** A streaming message does to the session what a plain one does, up to its first wait. */
  lemma StreamStartsAlike(w: World, cfg: Config, m: Mixed, t: nat, text: string)
    requires Enumerates(w.order) && t < |m.frames| && m.frames[t].None?
    ensures var d := Step(w, cfg, m, StreamMessage(t, text));
      var (c, out) := RunTurn(w, cfg, m.c, Say(text));
      && d.c == c && |d.frames| == |m.frames|
      && (!out.Awaiting? ==> d.frames[t].None? && d.event == m.event)
      && (out.Awaiting? ==> d.event == Some(t) && (d.frames[t].Some? <==> c.uuids > 0 && w.line(c.uuids - 1)))
  {
    var e := Summarised(w, cfg, m.c.(messages := m.c.messages + [Spoken(User(text))]));
    LoopAlike(w, cfg, e, 0);
    LoopCounts(w, cfg, e, 0);
  }

  lemma LoopCounts(w: World, cfg: Config, c: Conv, step: nat)
    requires Enumerates(w.order)
    ensures Loop(w, cfg, c, step).1.Awaiting? ==> Loop(w, cfg, c, step).0.uuids > 0
  {
    var delta := LoopTrace(w, cfg, c, step);
  }

  // ---- what a wake-up runs and says ----

  /** An approval that finds a record runs the command the stream waits at, under the record's id and with its tool. */
  predicate WakeRuns(c: Conv, f: Frame, action: Option<string>)
    requires f.AtCall?
  {
    && action == Some("approve") && c.pending.Some?
    && (f.command != "" || (c.pending.value.ToolPause? && c.pending.value.tool in {"phone_act", "delegate_to_claude"}))
  }

  function CommandRun(c: Conv, f: Frame, action: Option<string>): seq<Event>
    requires f.AtCall?
  {
    if WakeRuns(c, f, action) then [Executed(c.pending.value.cid, f.command)] else []
  }

  /** What the stream says of its call: that the time is up, that the user refused, or what the execution gave. */
  lemma WakeSays(w: World, c: Conv, f: Frame, action: Option<string>)
    requires f.AtCall?
    ensures var (d, output) := WakeOutput(w, c.(pending := None), f, c.pending, action);
      && d.trace == c.trace + CommandRun(c, f, action)
      && d == c.(pending := None, execs := d.execs, trace := d.trace)
      && (action.None? || c.pending.None? ==> output == Some("⚠️ 确认超时,命令未执行: " + f.command))
      && (action.Some? && c.pending.Some? && action.value != "approve" ==>
            output == Some("⚠️ 用户拒绝了此命令的执行。原命令: " + f.command
                           + "\n拒绝原因: 用户手动否决。请尝试其他方法完成目标。"))
      && (action == Some("approve") && c.pending.Some? ==>
            var tool := if c.pending.value.ToolPause? then c.pending.value.tool else "run_command";
            output == Execute(w, c, ToolPause(c.pending.value.cid, f.command, tool, f.call, f.step)).1)
  {
    assert c.trace + [] == c.trace;
    if action == Some("approve") && c.pending.Some? {
      var tool := if c.pending.value.ToolPause? then c.pending.value.tool else "run_command";
      var p := ToolPause(c.pending.value.cid, f.command, tool, f.call, f.step);
      ExecuteMeaning(w, c, p);
      ExecuteMeaning(w, c.(pending := None), p);
    }
  }

  // ---- what a stream adds to the trace ----

  lemma {:induction false} CallsSilent(w: World, c: Conv, calls: seq<ToolCall>, step: nat, warned: int)
    ensures StreamCalls(w, c, calls, step, warned).0.trace == c.trace
  {
    var n := CallsAlike(w, c, calls, step, warned);
    var rs := CallsShape(w, c, calls, step);
  }

  /** The loop sends step by step, from its first step on. */
  lemma {:induction false} LoopSends(w: World, cfg: Config, c: Conv, step: nat, warned: int)
    requires Enumerates(w.order)
    ensures InSteps(c.trace, StreamLoop(w, cfg, c, step, warned).0.trace, step)
    decreases cfg.maxSteps - step
  {
    if step < cfg.maxSteps && !(cfg.stepWarning > 0 && step - warned >= cfg.stepWarning) {
      RoundAlike(w, c, step, warned);
      RoundStep(w, c, step);
      var (c1, halt) := StreamRound(w, c, step, warned);
      if halt.Goes? {
        LoopSends(w, cfg, c1, step + 1, warned);
        StepsJoin(c.trace, c1.trace, StreamLoop(w, cfg, c1, step + 1, warned).0.trace, step);
      }
    }
  }

  lemma OnSends(w: World, cfg: Config, c: Conv, rest: seq<ToolCall>, step: nat, warned: int)
    requires Enumerates(w.order)
    ensures InSteps(c.trace, StreamOn(w, cfg, c, rest, step, warned).0.trace, step + 1)
  {
    CallsSilent(w, c, rest, step, warned);
    var (c1, halt) := StreamCalls(w, c, rest, step, warned);
    if halt.Goes? {
      LoopSends(w, cfg, c1, step + 1, warned);
    }
  }

  lemma DeltaOf(before: seq<Event>, after: seq<Event>, step: nat) returns (delta: seq<Event>)
    requires InSteps(before, after, step)
    ensures after == before + delta && AllSent(delta)
  {
    delta := after[|before|..];
  }

  /** Main result on a wake-up at a call. The command runs exactly when an approval finds a record, and then once,
      before anything is sent, from the next step on; the call is replied to with what came of it, and the calls
      after it go on from there. */
  lemma WakeMeaning(w: World, cfg: Config, m: Mixed, t: nat, action: Option<string>) returns (delta: seq<Event>)
    requires Enumerates(w.order) && t < |m.frames| && m.frames[t].Some? && m.frames[t].value.AtCall?
    ensures var d, f := Wake(w, cfg, m, t, action), m.frames[t].value;
      var (c1, output) := WakeOutput(w, m.c.(pending := None), f, m.c.pending, action);
      && d.c.trace == m.c.trace + CommandRun(m.c, f, action) + delta && AllSent(delta)
      && InSteps(m.c.trace + CommandRun(m.c, f, action), d.c.trace, f.step + 1)
      && (output.None? ==> d.c == c1 && d.frames[t].None? && delta == [])
      && (output.Some? ==>
            var c2 := c1.(messages := m.c.messages + [Tool(Reply(f.call.id, output.value))]);
            d == Parked(w, m.(event := None), t, StreamOn(w, cfg, c2, f.rest, f.step, f.warned)))
  {
    var f := m.frames[t].value;
    var (c1, output) := WakeOutput(w, m.c.(pending := None), f, m.c.pending, action);
    WakeSays(w, m.c, f, action);
    delta := [];
    if output.Some? {
      var c2 := c1.(messages := c1.messages + [Tool(Reply(f.call.id, output.value))]);
      OnSends(w, cfg, c2, f.rest, f.step, f.warned);
      delta := DeltaOf(c2.trace, StreamOn(w, cfg, c2, f.rest, f.step, f.warned).0.trace, f.step + 1);
    } else {
      assert c1.trace + [] == c1.trace;
    }
  }

  // ---- over mixed runs ----

  predicate Approves(a: Action) { a.Answered? && a.action == "approve" }

  /** At most one command, first of all, and only in answer to an approval. */
  predicate RunsOnlyOnApproval(before: seq<Event>, after: seq<Event>, a: Action) {
    && before <= after
    && (forall i :: |before| <= i < |after| && after[i].Executed? ==>
          Approves(a) && (i == |before| || (i == |before| + 1 && !after[|before|].Executed?)))
  }

  /** No step runs a command but an approval: not a message, not a wait that runs out, not a refusal. */
  lemma StepRunsOnApproval(w: World, cfg: Config, m: Mixed, a: Action)
    requires Enumerates(w.order)
    ensures RunsOnlyOnApproval(m.c.trace, Step(w, cfg, m, a).c.trace, a)
  {
    match a
    case PlainMessage(text) => PlainRunsOnApproval(w, cfg, m.c, Say(text), a);
    case StreamMessage(t, text) =>
      if t < |m.frames| && m.frames[t].None? {
        StreamStartsAlike(w, cfg, m, t, text);
        PlainRunsOnApproval(w, cfg, m.c, Say(text), a);
      }
    case Answered(id, action) =>
      if m.event.None? {
        PlainRunsOnApproval(w, cfg, m.c, Confirm(id, action), a);
      } else if m.event.value < |m.frames| && m.frames[m.event.value].Some? {
        WakeRunsOnApproval(w, cfg, m, m.event.value, Some(action), a);
      }
    case TimeUp(t) =>
      if t < |m.frames| && m.frames[t].Some? {
        WakeRunsOnApproval(w, cfg, m, t, None, a);
      }
  }

  lemma PlainRunsOnApproval(w: World, cfg: Config, c: Conv, req: Request, a: Action)
    requires Enumerates(w.order)
    requires req.Confirm? ==> (req.action == "approve" ==> Approves(a))
    ensures RunsOnlyOnApproval(c.trace, RunTurn(w, cfg, c, req).0.trace, a)
  {
    var delta := TurnTrace(w, cfg, c, req);
    HeadThenSent(c.trace, RequestHead(c, req), delta, a);
  }

  lemma HeadThenSent(before: seq<Event>, head: seq<Event>, delta: seq<Event>, a: Action)
    requires AllSent(delta) && |head| <= 2
    requires forall i :: 0 <= i < |head| && head[i].Executed? ==> Approves(a) && (i == 1 ==> !head[0].Executed?)
    ensures RunsOnlyOnApproval(before, before + head + delta, a)
  {
    Parts(before, head, delta);
  }

  lemma WakeRunsOnApproval(w: World, cfg: Config, m: Mixed, t: nat, action: Option<string>, a: Action)
    requires Enumerates(w.order) && t < |m.frames| && m.frames[t].Some?
    requires action == Some("approve") ==> Approves(a)
    ensures RunsOnlyOnApproval(m.c.trace, Wake(w, cfg, m, t, action).c.trace, a)
  {
    var f := m.frames[t].value;
    if f.AtCall? {
      var delta := WakeMeaning(w, cfg, m, t, action);
      HeadThenSent(m.c.trace, CommandRun(m.c, f, action), delta, a);
    } else if action == Some("approve") && m.c.pending.Some? {
      var c := m.c.(pending := None, acked := f.step);
      LoopSends(w, cfg, c, f.step + 1, f.warned);
      var delta := DeltaOf(c.trace, StreamLoop(w, cfg, c, f.step + 1, f.warned).0.trace, f.step + 1);
      HeadThenSent(m.c.trace, [], delta, a);
      assert m.c.trace + [] == m.c.trace;
    }
  }

  function Executions(trace: seq<Event>): nat {
    if trace == [] then 0 else
    var n := |trace| - 1;
    Executions(trace[..n]) + if trace[n].Executed? then 1 else 0
  }

  function Approvals(actions: seq<Action>): nat {
    if actions == [] then 0 else
    var n := |actions| - 1;
    Approvals(actions[..n]) + if Approves(actions[n]) then 1 else 0
  }

  /** One of the first two events added is a command. */
  predicate Ran(before: seq<Event>, after: seq<Event>) {
    || (|before| < |after| && after[|before|].Executed?)
    || (|before| + 1 < |after| && after[|before| + 1].Executed?)
  }

  lemma {:induction false} OneAtMost(before: seq<Event>, after: seq<Event>, a: Action)
    requires RunsOnlyOnApproval(before, after, a)
    ensures Executions(after) == Executions(before) + if Ran(before, after) then 1 else 0
    ensures Ran(before, after) ==> Approves(a)
    decreases |after|
  {
    if |after| == |before| {
      assert after == before;
    } else {
      var n := |after| - 1;
      assert before <= after[..n];
      assert forall i :: 0 <= i < n ==> after[..n][i] == after[i];
      OneAtMost(before, after[..n], a);
    }
  }

  /** Over every mixed run, with any number of streams, there are at most as many commands run as approvals given. */
  lemma {:induction false} NoRunWithoutApproval(w: World, cfg: Config, n: nat, actions: seq<Action>)
    requires Enumerates(w.order)
    ensures Executions(MixedRun(w, cfg, n, actions).c.trace) <= Approvals(actions)
  {
    if actions != [] {
      var k := |actions| - 1;
      var m := MixedRun(w, cfg, n, actions[..k]);
      NoRunWithoutApproval(w, cfg, n, actions[..k]);
      StepRunsOnApproval(w, cfg, m, actions[k]);
      OneAtMost(m.c.trace, MixedRun(w, cfg, n, actions).c.trace, actions[k]);
    }
  }

  /** Approved in time, a step warning is acknowledged; not approved, or not in time, it ends the stream. */
  lemma WarningAnswered(w: World, cfg: Config, m: Mixed, t: nat, action: Option<string>)
    requires Enumerates(w.order) && t < |m.frames| && m.frames[t].Some? && m.frames[t].value.AtWarning?
    ensures var d, f := Wake(w, cfg, m, t, action), m.frames[t].value;
      if action == Some("approve") && m.c.pending.Some? then
        d == Parked(w, m.(event := None), t,
                    StreamLoop(w, cfg, m.c.(pending := None, acked := f.step), f.step + 1, f.warned))
      else d.c == m.c.(pending := None) && d.frames[t].None? && d.event.None?
  {
  }

  /** A confirmation for a stream whose client has left is swallowed: only the event goes, and the next confirmation
      meets the record as a plain one does. */
  lemma LeftBehind(w: World, cfg: Config, m: Mixed, id: string, action: string, id': string, action': string)
    requires m.event.Some? && (m.event.value < |m.frames| ==> m.frames[m.event.value].None?)
    ensures var d := Step(w, cfg, m, Answered(id, action));
      && d.event.None? && d.c == m.c && d.frames == m.frames
      && Step(w, cfg, d, Answered(id', action')).c == RunTurn(w, cfg, m.c, Confirm(id', action')).0
  {
  }
}
