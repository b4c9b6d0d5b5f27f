/** What a round, a pause, an execution and a summary are, field by field and text by text. */
module RoundMeaning {
  import opened Prelude
  import opened History
  import opened SummaryCut
  import opened Conversation
  import opened PairingSafety
  import opened TraceSafety
  import opened Resumption

  // ---- asking the model ----

  /** The answer as the session keeps it. */
  predicate Kept(turn: Option<Turn>, r: ModelResult) {
    if r.Answer? then turn.Some? && turn.value.Assistant? && turn.value.text == r.text && turn.value.calls == r.calls
    else turn.None?
  }

  /** The history is repaired and sent, once, or twice when the first answer is a 400; the answer is the last one's. */
  lemma AskMeaning(w: World, c: Conv, step: nat)
    requires Enumerates(w.order)
    ensures var (d, turn) := Ask(w, c, step);
      var h, again := Repaired(c.messages, w.order), w.model(c.models).BadRequest?;
      && Kept(turn, w.model(if again then c.models + 1 else c.models))
      && d.messages == h && d.models == c.models + (if again then 2 else 1)
      && d.trace == SentTo(c.trace, step, h, again)
      && OnlyAsked(c, d)
  {
    var h := Repaired(c.messages, w.order);
    RetryResends(c.messages, w.order);
    SendMeaning(c, step, false, h);
    if w.model(c.models).BadRequest? {
      SendMeaning(Send(c, step, false, h), step, true, h);
    }
  }

  lemma SendMeaning(c: Conv, step: nat, retry: bool, h: seq<Message>)
    ensures var d := Send(c, step, retry, h);
      d.messages == h && d.models == c.models + 1 && d.trace == c.trace + [Sent(step, retry, h)] && OnlyAsked(c, d)
  {
  }

  function SentTo(trace: seq<Event>, step: nat, h: seq<Message>, again: bool): seq<Event> {
    if again then trace + [Sent(step, false, h)] + [Sent(step, true, h)] else trace + [Sent(step, false, h)]
  }

  /** Apart from what is said and sent, nothing has changed. */
  predicate OnlyAsked(c: Conv, d: Conv) {
    d == c.(messages := d.messages, models := d.models, trace := d.trace)
  }

  // ---- the calls of an answer ----

  /** What the session keeps of a call that needs approval, and what the user is shown. */
  predicate AsksFor(p: Pending, out: Outcome, answer: ToolResult, cid: string) {
    && answer.NeedsApproval? && p.ToolPause?
    && p.cid == cid && p.command == answer.command
    && p.tool == (if answer.tool.Some? then answer.tool.value else p.call.name)
    && out.Awaiting? && out.cid == cid && out.shown.Command? && out.shown.text == answer.command
  }

  /** The first n calls are done, and replied to in order, each under its id and with its output. */
  predicate CallsDone(w: World, tools: nat, calls: seq<ToolCall>, n: nat, rs: seq<Reply>) {
    && n <= |calls| && |rs| == n
    && forall i :: 0 <= i < n ==>
         rs[i].callId == calls[i].id && w.tool(tools + i).Done? && rs[i].output == w.tool(tools + i).output
  }

  /** Where the calls end: all are done, or the n-th is not. Apart from the replies and the tool answers used nothing
      has changed, unless that call waits for approval. */
  predicate CallsEnd(w: World, c: Conv, calls: seq<ToolCall>, step: nat, n: nat, rs: seq<Reply>, d: Conv, flow: Flow) {
    var c1 := c.(messages := c.messages + ToolMessages(rs), tools := d.tools);
    && CallsDone(w, c.tools, calls, n, rs)
    && d.tools == c.tools + n + (if n < |calls| then 1 else 0)
    && (flow.Continue? <==> n == |calls|)
    && (flow.Continue? ==> d == c1)
    && (n < |calls| ==>
          match w.tool(c.tools + n)
          case Done(_) => false
          case ToolError => flow == Stop(Raised) && d == c1
          case NeedsApproval(_, _) =>
            && flow.Stop? && d.pending.Some? && d == c1.(pending := d.pending, uuids := c.uuids + 1)
            && AsksFor(d.pending.value, flow.outcome, w.tool(c.tools + n), w.uuid(c.uuids))
            && d.pending.value.call == calls[n] && d.pending.value.step == step)
  }

  /** The tool is asked for the calls in order. Each that is done is replied to, under its id and with its output, and
      nothing else changes; the first that is not done stops the round, and what is on record is what the tool
      asked approval for. */
  lemma {:induction false} CallsMeaning(w: World, c: Conv, calls: seq<ToolCall>, step: nat)
    returns (n: nat, rs: seq<Reply>)
    ensures CallsEnd(w, c, calls, step, n, rs, RunCalls(w, c, calls, step).0, RunCalls(w, c, calls, step).1)
    decreases |calls|
  {
    n, rs := 0, [];
    if calls != [] && w.tool(c.tools).Done? {
      var r := Reply(calls[0].id, w.tool(c.tools).output);
      var c1 := c.(tools := c.tools + 1, messages := c.messages + [Tool(r)]);
      var (d, flow) := RunCalls(w, c1, calls[1..], step);
      var m, rest := CallsMeaning(w, c1, calls[1..], step);
      OneMoreDone(w, c, calls, step, r, m, rest, d, flow);
      n, rs := m + 1, [r] + rest;
    } else {
      assert c.messages + ToolMessages([]) == c.messages;
    }
  }

  lemma OneMoreDone(w: World, c: Conv, calls: seq<ToolCall>, step: nat, r: Reply, m: nat, rest: seq<Reply>,
                    d: Conv, flow: Flow)
    requires calls != [] && w.tool(c.tools) == Done(r.output) && r.callId == calls[0].id
    requires var c1 := c.(tools := c.tools + 1, messages := c.messages + [Tool(r)]);
      CallsEnd(w, c1, calls[1..], step, m, rest, d, flow)
    ensures CallsEnd(w, c, calls, step, m + 1, [r] + rest, d, flow)
  {
    RepliesJoin(c.messages, r, rest);
    assert forall i :: 0 < i < |calls| ==> calls[i] == calls[1..][i - 1];
    MoreDone(w, c.tools, calls, r, m, rest);
  }

  lemma MoreDone(w: World, tools: nat, calls: seq<ToolCall>, r: Reply, m: nat, rest: seq<Reply>)
    requires calls != [] && w.tool(tools) == Done(r.output) && r.callId == calls[0].id
    requires CallsDone(w, tools + 1, calls[1..], m, rest)
    ensures CallsDone(w, tools, calls, m + 1, [r] + rest)
  {
    var rs := [r] + rest;
    forall i | 0 <= i < m + 1
      ensures rs[i].callId == calls[i].id && w.tool(tools + i).Done? && rs[i].output == w.tool(tools + i).output
    {
      if i > 0 {
        assert rs[i] == rest[i - 1] && calls[i] == calls[1..][i - 1];
        assert w.tool(tools + i) == w.tool(tools + 1 + (i - 1));
      }
    }
  }

  lemma RepliesJoin(ms: seq<Message>, r: Reply, rest: seq<Reply>)
    ensures ms + ToolMessages([r] + rest) == ms + [Tool(r)] + ToolMessages(rest)
  {
  }

  /** A round by its answer: none stops it with an error; one without calls ends the turn; calls are run in order. */
  lemma RoundMeaning(w: World, c: Conv, step: nat)
    requires Enumerates(w.order)
    ensures var (d, flow) := Round(w, c, step);
      var last, h := w.model(AnswerIndex(w, c)), Repaired(c.messages, w.order);
      && (!last.Answer? ==> flow == Stop(Raised) && d.messages == h && d.tools == c.tools && d.pending == c.pending)
      && (last.Answer? && last.calls == [] ==>
            flow == Stop(Finished) && d.messages == h + [Spoken(Assistant(last.text, []))] && d.tools == c.tools
            && d.pending == c.pending)
      && (last.Answer? && last.calls != [] ==>
            var c2 := Ask(w, c, step).0.(messages := h + [Spoken(Assistant(last.text, last.calls))]);
            (d, flow) == RunCalls(w, c2, last.calls, step))
  {
    AskMeaning(w, c, step);
  }

  /** A session that waits at a call has just been asked for approval of it: what is on record is what the last
      tool answer says. */
  predicate JustAsked(w: World, c: Conv, d: Conv, out: Outcome) {
    && c.tools <= d.tools && c.uuids <= d.uuids
    && (out.Awaiting? && d.pending.Some? && d.pending.value.ToolPause? ==>
          && c.tools < d.tools && c.uuids < d.uuids
          && AsksFor(d.pending.value, out, w.tool(d.tools - 1), w.uuid(d.uuids - 1)))
  }

  lemma {:induction false} LoopJustAsked(w: World, cfg: Config, c: Conv, step: nat)
    requires Enumerates(w.order)
    ensures JustAsked(w, c, Loop(w, cfg, c, step).0, Loop(w, cfg, c, step).1)
    decreases cfg.maxSteps - step
  {
    if step < cfg.maxSteps && !(cfg.stepWarning > 0 && step - c.acked >= cfg.stepWarning) {
      RoundJustAsked(w, c, step);
      var (c1, flow) := Round(w, c, step);
      if flow.Continue? {
        LoopJustAsked(w, cfg, c1, step + 1);
        AskedLater(w, c, c1, Loop(w, cfg, c1, step + 1).0, Loop(w, cfg, c1, step + 1).1);
      }
    }
  }

  lemma AskedLater(w: World, c: Conv, c1: Conv, d: Conv, out: Outcome)
    requires c.tools <= c1.tools && c.uuids <= c1.uuids && JustAsked(w, c1, d, out)
    ensures JustAsked(w, c, d, out)
  {
  }

  lemma RoundJustAsked(w: World, c: Conv, step: nat)
    requires Enumerates(w.order)
    ensures var (d, flow) := Round(w, c, step);
      && c.tools <= d.tools && c.uuids <= d.uuids
      && (flow.Stop? ==> JustAsked(w, c, d, flow.outcome))
  {
    AskMeaning(w, c, step);
    RoundMeaning(w, c, step);
    var last, h := w.model(AnswerIndex(w, c)), Repaired(c.messages, w.order);
    if last.Answer? && last.calls != [] {
      var c2 := Ask(w, c, step).0.(messages := h + [Spoken(Assistant(last.text, last.calls))]);
      var n, rs := CallsMeaning(w, c2, last.calls, step);
      CallsAsked(w, c2, last.calls, step, n, rs, Round(w, c, step).0, Round(w, c, step).1);
    }
  }

  lemma CallsAsked(w: World, c: Conv, calls: seq<ToolCall>, step: nat, n: nat, rs: seq<Reply>, d: Conv, flow: Flow)
    requires CallsEnd(w, c, calls, step, n, rs, d, flow)
    ensures c.tools <= d.tools && c.uuids <= d.uuids
    ensures flow.Stop? ==> JustAsked(w, c, d, flow.outcome)
  {
  }

  // ---- the steps of a loop ----

  /** Each round is one step after the one before; a retry belongs to its round. */
  predicate Consecutive(trace: seq<Event>, from: nat, step: nat) {
    && (forall i :: from <= i < |trace| ==> trace[i].Sent?)
    && (from < |trace| ==> trace[from].step == step)
    && (forall i :: from < i < |trace| ==> trace[i].step == trace[i - 1].step + if trace[i].retry then 0 else 1)
  }

  /** What is added to the trace is sent step by step, from this step on. */
  predicate InSteps(before: seq<Event>, after: seq<Event>, step: nat) {
    && before <= after && Consecutive(after, |before|, step)
    && (|before| < |after| ==> !after[|before|].retry)
  }

  lemma {:induction false} StepsInOrder(w: World, cfg: Config, c: Conv, step: nat)
    requires Enumerates(w.order)
    ensures InSteps(c.trace, Loop(w, cfg, c, step).0.trace, step)
    decreases cfg.maxSteps - step
  {
    if step < cfg.maxSteps && !(cfg.stepWarning > 0 && step - c.acked >= cfg.stepWarning) {
      RoundStep(w, c, step);
      var (c1, flow) := Round(w, c, step);
      if flow.Continue? {
        StepsInOrder(w, cfg, c1, step + 1);
        StepsJoin(c.trace, c1.trace, Loop(w, cfg, c1, step + 1).0.trace, step);
      }
    }
  }

  /** A round adds one step and no more. */
  predicate OneStep(before: seq<Event>, after: seq<Event>, step: nat) {
    before < after && InSteps(before, after, step) && after[|after| - 1].Sent? && after[|after| - 1].step == step
  }

  lemma RoundStep(w: World, c: Conv, step: nat)
    requires Enumerates(w.order)
    ensures OneStep(c.trace, Round(w, c, step).0.trace, step)
  {
    var k, rs := RoundShape(w, c, step);
    SentOnce(c.trace, Round(w, c, step).0.trace, step, Repaired(c.messages, w.order));
  }

  lemma SentOnce(before: seq<Event>, after: seq<Event>, step: nat, h: seq<Message>)
    requires AskTrace(before, after, step, h)
    ensures OneStep(before, after, step)
  {
  }

  lemma StepsJoin(a: seq<Event>, b: seq<Event>, t: seq<Event>, step: nat)
    requires OneStep(a, b, step) && InSteps(b, t, step + 1)
    ensures InSteps(a, t, step)
  {
    assert forall i :: |a| <= i < |b| ==> t[i] == b[i];
  }

  // ---- running what was approved ----

  /** What an approved record comes to. A phone action never raises; a delegation is dispatched again, and runs what
      that gives; a plain command runs unless it is empty. */
  lemma ExecuteMeaning(w: World, c: Conv, p: Pending)
    requires p.ToolPause?
    ensures var (d, output) := Execute(w, c, p);
      var k := c.execs;
      && (p.tool == "phone_act" ==>
            output == Some(if w.exec(k).Some? then w.exec(k).value else "phone_act failed"))
      && (p.tool == "delegate_to_claude" && w.delegate(k).DispatchError? ==> output == None)
      && (p.tool == "delegate_to_claude" && w.delegate(k).Delegated? ==> output == w.exec(k))
      && (p.tool == "delegate_to_claude" && w.delegate(k).Undelegated? ==>
            output == if p.command == "" then Some("(空命令)") else w.exec(k))
      && (p.tool != "phone_act" && p.tool != "delegate_to_claude" ==>
            output == if p.command == "" then Some("(空命令)") else w.exec(k))
      && (if p.tool == "phone_act" || p.tool == "delegate_to_claude" || p.command != "" then
            d == c.(execs := k + 1, trace := c.trace + [Executed(p.cid, p.command)])
          else d == c)
  {
  }

  /** What the model is told of a resumed call: the output of the execution that an approval starts, and after any
      other action that the user refused the command. */
  lemma ResumedText(w: World, c: Conv, req: Request)
    requires Resumes(c, req)
    ensures var p, output := c.pending.value, ResumeOutput(w, c, req.action);
      && (req.action == "approve" ==> output == Execute(w, c, p).1)
      && (req.action != "approve" ==>
            output == Some("⚠️ 用户拒绝了此命令的执行。原命令: " + p.command
                           + "\n拒绝原因: 用户手动否决。请尝试其他方法完成目标。"))
      && (output.Some? ==> ResumedReply(w, c, req) == Reply(p.call.id, output.value))
  {
  }

  /** A confirmation that meets no record, or one under another id, drops the record and changes nothing else. */
  lemma RefusedConfirmation(w: World, cfg: Config, c: Conv, id: string, action: string)
    requires c.pending.None? || c.pending.value.cid != id
    ensures RunTurn(w, cfg, c, Confirm(id, action)) == (c.(pending := None), Refused)
  {
  }

  /** A step warning that is not approved ends the turn: no message, no round, no new acknowledgement. */
  lemma StepsDenied(w: World, cfg: Config, c: Conv, req: Request)
    requires Matches(c, req) && c.pending.value.StepPause? && req.action != "approve"
    ensures RunTurn(w, cfg, c, req) ==
            (c.(pending := None, trace := c.trace + [Resumed(c.pending.value, req.action)]), Finished)
  {
  }

  // ---- a new message ----

  /** A message enters the loop as the open turn, with nothing else touched that the trace or the warning depends on. */
  lemma MessageEnters(w: World, cfg: Config, c: Conv, text: string) returns (e: Conv)
    ensures RunTurn(w, cfg, c, Say(text)) == Loop(w, cfg, e, 0)
    ensures e.trace == c.trace && e.acked == c.acked && Open(e.messages) == Block(Some(User(text)), [])
  {
    var c1 := c.(messages := c.messages + [Spoken(User(text))]);
    e := Summarised(w, cfg, c1);
    BlocksSnoc(c.messages, Spoken(User(text)));
    if TooLong(cfg, c1.messages) {
      CutOpen(c1.messages, cfg.keepTurns);
    }
  }

  /** The first history sent after a message ends with it. */
  lemma MessageArrives(w: World, cfg: Config, c: Conv, text: string)
    requires Enumerates(w.order) && Within(cfg, c.acked, 0)
    ensures var t := RunTurn(w, cfg, c, Say(text)).0.trace;
      |c.trace| < |t| && t[|c.trace|].Sent? && t[|c.trace|].step == 0
      && Open(t[|c.trace|].history) == Block(Some(User(text)), [])
  {
    var e := MessageEnters(w, cfg, c, text);
    LoopFirst(w, cfg, e, 0);
    StepsInOrder(w, cfg, e, 0);
    FirstStepOf(e.trace, Loop(w, cfg, e, 0).0.trace, 0);
    UserStaysOpen(e.messages, text, w.order);
  }

  lemma FirstStepOf(before: seq<Event>, after: seq<Event>, step: nat)
    requires InSteps(before, after, step) && |before| < |after|
    ensures after[|before|].Sent? && after[|before|].step == step
  {
  }

  lemma UserStaysOpen(ms: seq<Message>, text: string, order: Order)
    requires Enumerates(order) && Open(ms) == Block(Some(User(text)), [])
    ensures Open(Repaired(ms, order)) == Block(Some(User(text)), [])
  {
    OpenRepaired(ms, order);
    NoReplies(Open(Repaired(ms, order)));
  }

  lemma NoReplies(b: Block)
    requires b.Balanced() && b.Offered() == {}
    ensures b.replies == []
  {
    SomeId(b.replies);
  }

  lemma SomeId(replies: seq<Reply>)
    ensures replies != [] ==> ReplyIds(replies) != {}
  {
    if replies != [] {
      assert replies[0].callId in ReplyIds(replies);
    }
  }

  lemma CutOpen(ms: seq<Message>, keep: nat)
    requires |UserIndexes(ms)| > keep
    ensures Open(ms[Cut(ms, keep)..]) == Open(ms)
  {
    var a, b := ms[..Cut(ms, keep)], ms[Cut(ms, keep)..];
    assert ms == a + b;
    SuffixBlocks(a, b);
  }

  // ---- summaries ----

  /** The size of a history is the length of its texts. */
  lemma {:induction false} CharsAdd(a: seq<Message>, b: seq<Message>)
    ensures Chars(a + b) == Chars(a) + Chars(b)
  {
    if b == [] {
      assert a + b == a;
    } else {
      var front, m := b[..|b| - 1], b[|b| - 1];
      assert b == front + [m];
      assert (a + b)[..|a + b| - 1] == a + front;
      CharsAdd(a, front);
    }
  }

  lemma CharsOne(t: Turn, r: Reply)
    ensures Chars([]) == 0 && Chars([Spoken(t)]) == |t.text| && Chars([Tool(r)]) == |r.output|
  {
    assert [Spoken(t)][..0] == [] && [Tool(r)][..0] == [];
  }

  predicate Increasing(u: seq<nat>, bound: nat) {
    && (forall i :: 0 <= i < |u| ==> u[i] < bound)
    && (forall i, j :: 0 <= i < j < |u| ==> u[i] < u[j])
  }

  /** The positions of the user messages, each once and in order. */
  lemma {:induction false} UsersAre(ms: seq<Message>)
    ensures Increasing(UserIndexes(ms), |ms|)
    ensures forall x :: x in UserIndexes(ms) <==> 0 <= x < |ms| && ms[x].Spoken? && ms[x].turn.User?
  {
    if ms != [] {
      var n := |ms| - 1;
      UsersAre(ms[..n]);
      OneMoreUser(ms, n, UserIndexes(ms[..n]));
    }
  }

  lemma OneMoreUser(ms: seq<Message>, n: nat, u: seq<nat>)
    requires |ms| == n + 1 && Increasing(u, n)
    requires forall x :: x in u <==> 0 <= x < n && ms[..n][x].IsUser()
    ensures var v := u + if ms[n].IsUser() then [n] else [];
      Increasing(v, n + 1) && forall x :: x in v <==> 0 <= x < |ms| && ms[x].IsUser()
  {
    assert forall x :: 0 <= x < n ==> ms[..n][x] == ms[x];
  }

  /** A history is cut only when it is too long, has more user messages than are kept, and the summary succeeds;
      it then keeps the wanted number of user messages, from the first of them on, and the summary is the new one. */
  lemma SummaryMeaning(w: World, cfg: Config, c: Conv)
    ensures var d := Summarised(w, cfg, c);
      var asked := Chars(c.messages) > cfg.maxChars && |UserIndexes(c.messages)| > cfg.keepTurns;
      var s := w.digest(c.digests);
      && d == c.(messages := d.messages, summary := d.summary, digests := c.digests + if asked then 1 else 0)
      && (!(asked && s.Some?) ==> d.messages == c.messages && d.summary == c.summary)
      && (asked && s.Some? ==>
            && d.summary == s.value
            && |d.messages| <= |c.messages| && d.messages == c.messages[|c.messages| - |d.messages|..]
            && d.messages != [] && d.messages[0].IsUser()
            && (cfg.keepTurns > 0 ==> |UserIndexes(d.messages)| == cfg.keepTurns))
  {
    if TooLong(cfg, c.messages) {
      CutSuffix(c.messages, cfg.keepTurns);
      DigestMeaning(w, c, Cut(c.messages, cfg.keepTurns));
    }
  }

  lemma CutSuffix(ms: seq<Message>, keep: nat)
    requires |UserIndexes(ms)| > keep
    ensures var kept := ms[Cut(ms, keep)..];
      && |kept| <= |ms| && kept == ms[|ms| - |kept|..] && kept != [] && kept[0].IsUser()
      && (keep > 0 ==> |UserIndexes(kept)| == keep)
  {
    CutKeeps(ms, keep);
  }

  lemma DigestMeaning(w: World, c: Conv, cut: nat)
    requires cut <= |c.messages|
    ensures var d, s := Digested(w, c, cut), w.digest(c.digests);
      && d == c.(messages := d.messages, summary := d.summary, digests := c.digests + 1)
      && (s.None? ==> d.messages == c.messages && d.summary == c.summary)
      && (s.Some? ==> d.messages == c.messages[cut..] && d.summary == s.value)
  {
  }
}
