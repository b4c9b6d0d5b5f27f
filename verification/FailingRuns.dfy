/** Runs that show the exact conditions failing: a result that is lost, a call without an id, an id used twice in
    one answer or again in a later one, and calls that are abandoned. */
module FailingRuns {
  import opened Prelude
  import opened History
  import opened Conversation
  import opened PairingSafety
  import opened TraceSafety
  import opened RepeatedIds
  import opened Resumption

  predicate SentIn(trace: seq<Event>, h: seq<Message>) {
    exists k :: 0 <= k < |trace| && trace[k].Sent? && trace[k].history == h
  }

  /** Two steps at least, and no step warning. */
  predicate Roomy(cfg: Config) { cfg.maxSteps >= 2 && cfg.stepWarning <= 0 }

  // ---- single rounds ----

  predicate AnswersWith(w: World, k: nat, calls: seq<ToolCall>) {
    w.model(k).Answer? && w.model(k).calls == calls
  }

  /** The first call of the answer needs approval. */
  lemma PausesFirst(w: World, c: Conv, step: nat)
    requires w.model(c.models).Answer? && w.model(c.models).calls != [] && w.tool(c.tools).NeedsApproval?
    ensures var (d, flow) := Round(w, c, step);
      && flow.Stop? && flow.outcome.Awaiting? && d.models == c.models + 1 && d.tools == c.tools + 1
      && d.pending.Some? && d.pending.value.ToolPause? && d.pending.value.call == w.model(c.models).calls[0]
      && d.messages == After(Repaired(c.messages, w.order), AnswerTurn(w.model(c.models)), [])
  {
    assert ToolMessages([]) == [];
  }

  /** The answer has one call, and it is done. */
  lemma OneDone(w: World, c: Conv, step: nat, a: ToolCall)
    requires AnswersWith(w, c.models, [a]) && w.tool(c.tools).Done?
    ensures var (d, flow) := Round(w, c, step);
      && flow.Continue? && d.pending == c.pending && d.models == c.models + 1 && d.tools == c.tools + 1
      && d.messages == After(Repaired(c.messages, w.order), AnswerTurn(w.model(c.models)),
                             [Reply(a.id, w.tool(c.tools).output)])
  {
    var (c1, turn) := Ask(w, c, step);
    var c2 := c1.(messages := c1.messages + [Spoken(turn.value)]);
    var r := Reply(a.id, w.tool(c.tools).output);
    var c3 := c2.(tools := c.tools + 1, messages := c2.messages + [Tool(r)]);
    assert Round(w, c, step) == RunCalls(w, c2, [a], step);
    assert [a][1..] == [] && ToolMessages([r]) == [Tool(r)];
    assert RunCalls(w, c2, [a], step) == RunCalls(w, c3, [], step);
  }

  /** The n tool calls from the k-th on are done. */
  predicate DoneFrom(w: World, k: nat, n: nat) {
    forall j: nat :: k <= j < k + n ==> w.tool(j).Done?
  }

  /** All calls of the answer are done. */
  lemma {:induction false} AllDone(w: World, c: Conv, calls: seq<ToolCall>, step: nat)
    requires DoneFrom(w, c.tools, |calls|)
    ensures RunCalls(w, c, calls, step).1.Continue?
    decreases |calls|
  {
    if calls != [] {
      var r := Reply(calls[0].id, w.tool(c.tools).output);
      AllDone(w, c.(tools := c.tools + 1, messages := c.messages + [Tool(r)]), calls[1..], step);
    }
  }

  lemma GoesOn(w: World, c: Conv, step: nat)
    requires w.model(c.models).Answer? && w.model(c.models).calls != []
    requires DoneFrom(w, c.tools, |w.model(c.models).calls|)
    ensures Round(w, c, step).1.Continue? && Round(w, c, step).0.acked == c.acked
    ensures AnswerIndex(w, c) == c.models
  {
    var (c1, turn) := Ask(w, c, step);
    var c2 := c1.(messages := c1.messages + [Spoken(turn.value)]);
    assert Round(w, c, step) == RunCalls(w, c2, turn.value.calls, step);
    AllDone(w, c2, turn.value.calls, step);
    var rs := CallsShape(w, c2, turn.value.calls, step);
  }

  /** The answer has no calls. */
  lemma NoCalls(w: World, c: Conv, step: nat)
    requires AnswersWith(w, c.models, [])
    ensures var (d, flow) := Round(w, c, step);
      && flow.Stop? && d.pending == c.pending
      && d.messages == After(Repaired(c.messages, w.order), AnswerTurn(w.model(c.models)), [])
  {
    assert ToolMessages([]) == [];
  }

  // ---- messages ----

  lemma Entered(w: World, cfg: Config, c: Conv, text: string)
    ensures var e := Entry(w, cfg, c, Say(text)).value;
      e.models == c.models && e.tools == c.tools && e.pending == c.pending && e.uuids == c.uuids && e.acked == c.acked
  {
  }

  lemma LoopOnce(w: World, cfg: Config, c: Conv, step: nat)
    requires step < cfg.maxSteps && cfg.stepWarning <= 0
    ensures var (d, flow) := Round(w, c, step);
      Loop(w, cfg, c, step) == if flow.Stop? then (d, flow.outcome) else Loop(w, cfg, d, step + 1)
  {
  }

  /** The first message ends in a pause at the first call of the answer. */
  lemma FirstPause(w: World, cfg: Config, x: string)
    requires Roomy(cfg) && w.model(0).Answer? && w.model(0).calls != [] && w.tool(0).NeedsApproval?
    ensures var (c, out) := RunTurn(w, cfg, START, Say(x));
      && out.Awaiting? && c.models == 1 && c.tools == 1
      && c.pending.Some? && c.pending.value.ToolPause? && c.pending.value.call == w.model(0).calls[0]
      && Open(c.messages) == Block(AnswerTurn(w.model(0)), [])
  {
    var e := Entry(w, cfg, START, Say(x)).value;
    EntryTurn(w, cfg, START, Say(x));
    Entered(w, cfg, START, x);
    LoopOnce(w, cfg, e, 0);
    PausesFirst(w, e, 0);
    AfterBlocks(Repaired(e.messages, w.order), AnswerTurn(w.model(0)).value, []);
  }

  lemma OneMessage(w: World, cfg: Config, x: string)
    ensures Run(w, cfg, START, []) == START && [] + [Say(x)] == [Say(x)]
    ensures Run(w, cfg, START, [Say(x)]) == RunTurn(w, cfg, START, Say(x)).0
  {
    RunSnoc(w, cfg, START, [], Say(x));
    assert [] + [Say(x)] == [Say(x)];
  }

  lemma TwoMessages(w: World, cfg: Config, x: string, y: string)
    ensures Run(w, cfg, START, [Say(x), Say(y)]) == RunTurn(w, cfg, RunTurn(w, cfg, START, Say(x)).0, Say(y)).0
  {
    OneMessage(w, cfg, x);
    RunSnoc(w, cfg, START, [Say(x)], Say(y));
    assert [Say(x)] + [Say(y)] == [Say(x), Say(y)];
  }

  /** The first message leads to a round that goes on; the history sent next is the repair of what it left. */
  lemma FirstGoesOn(w: World, cfg: Config, x: string) returns (e: Conv)
    requires Enumerates(w.order) && Roomy(cfg) && w.model(0).Answer? && w.model(0).calls != []
    requires DoneFrom(w, 0, |w.model(0).calls|)
    ensures Round(w, e, 0).1.Continue? && AnswerCalls(w, e) == w.model(0).calls
    ensures SentIn(RunTurn(w, cfg, START, Say(x)).0.trace, Repaired(Round(w, e, 0).0.messages, w.order))
  {
    e := Entry(w, cfg, START, Say(x)).value;
    EntryTurn(w, cfg, START, Say(x));
    Entered(w, cfg, START, x);
    LoopOnce(w, cfg, e, 0);
    GoesOn(w, e, 0);
    LoopFirst(w, cfg, Round(w, e, 0).0, 1);
  }

  // ---- a lost result ----

  /** A call waits; a new message is answered without calls; then the old call is denied. Its result is in no
      history: the one sent next is that of a list without it. */
  lemma ResultLost(w: World, cfg: Config, x: string, y: string)
    returns (c: Conv, req: Request, h: seq<Message>, r: Reply)
    requires Enumerates(w.order) && Roomy(cfg)
    requires w.model(0).Answer? && w.model(0).calls != [] && w.tool(0).NeedsApproval? && AnswersWith(w, 1, [])
    ensures c == Run(w, cfg, START, [Say(x), Say(y)]) && Resumes(c, req)
    ensures ResumeOutput(w, c, req.action).Some? && r == ResumedReply(w, c, req)
    ensures SentIn(RunTurn(w, cfg, c, req).0.trace, h)
    ensures h == Repaired(c.messages, w.order) && r !in Open(h).replies
  {
    OldCallWaits(w, cfg, x, y);
    c, req, h, r := DenialLost(w, cfg, [Say(x), Say(y)]);
  }

  /** A call waits that the open turn does not offer. */
  predicate StaleWaiting(c: Conv) {
    && c.pending.Some? && c.pending.value.ToolPause?
    && c.pending.value.call.id !in Open(c.messages).Offered()
  }

  lemma OldCallWaits(w: World, cfg: Config, x: string, y: string)
    requires Roomy(cfg)
    requires w.model(0).Answer? && w.model(0).calls != [] && w.tool(0).NeedsApproval? && AnswersWith(w, 1, [])
    ensures StaleWaiting(Run(w, cfg, START, [Say(x), Say(y)]))
  {
    FirstPause(w, cfg, x);
    TwoMessages(w, cfg, x, y);
    AnsweredWithoutCalls(w, cfg, RunTurn(w, cfg, START, Say(x)).0, y);
  }

  /** Denied in such a state, in any run, the call's result is lost. */
  lemma DenialLost(w: World, cfg: Config, reqs: seq<Request>)
    returns (c: Conv, req: Request, h: seq<Message>, r: Reply)
    requires Enumerates(w.order) && StaleWaiting(Run(w, cfg, START, reqs))
    ensures c == Run(w, cfg, START, reqs) && Resumes(c, req)
    ensures ResumeOutput(w, c, req.action).Some? && r == ResumedReply(w, c, req)
    ensures SentIn(RunTurn(w, cfg, c, req).0.trace, h)
    ensures h == Repaired(c.messages, w.order) && r !in Open(h).replies
  {
    req := Confirm(Run(w, cfg, START, reqs).pending.value.cid, "deny");
    c, h, r := ResultReachesIff(w, cfg, reqs, req);
  }

  lemma AnsweredWithoutCalls(w: World, cfg: Config, c: Conv, y: string)
    requires Roomy(cfg) && AnswersWith(w, c.models, [])
    ensures var d := RunTurn(w, cfg, c, Say(y)).0;
      d.pending == c.pending && Open(d.messages).Offered() == {}
  {
    var e := Entry(w, cfg, c, Say(y)).value;
    EntryTurn(w, cfg, c, Say(y));
    Entered(w, cfg, c, y);
    LoopOnce(w, cfg, e, 0);
    NoCalls(w, e, 0);
    AfterBlocks(Repaired(e.messages, w.order), AnswerTurn(w.model(c.models)).value, []);
  }

  // ---- a call without an id ----

  /** An answer with a call that has no id: the repair of the next round changes the list,
      and the history sent has no reply to that call. */
  lemma UnnamedCallDropped(w: World, cfg: Config, x: string) returns (ms: seq<Message>, h: seq<Message>)
    requires Enumerates(w.order) && Roomy(cfg)
    requires w.model(0).Answer? && w.model(0).calls != [] && !Named(w.model(0).calls)
    requires DoneFrom(w, 0, |w.model(0).calls|)
    ensures h == Repaired(ms, w.order) != ms && SentIn(RunTurn(w, cfg, START, Say(x)).0.trace, h)
    ensures exists r :: r in Open(ms).replies && r.callId == ""
    ensures forall r :: r in Open(h).replies ==> r.callId != ""
  {
    var e := FirstGoesOn(w, cfg, x);
    ms := Round(w, e, 0).0.messages;
    h := Repaired(ms, w.order);
    RepairOnlyFirst(w, e, 0);
    var rs := RoundOn(w, e, 0);
    AfterBlocks(Repaired(e.messages, w.order), AnswerTurn(w.model(AnswerIndex(w, e))).value, rs);
    var i :| 0 <= i < |w.model(0).calls| && w.model(0).calls[i].id == "";
    assert rs[i] in Open(ms).replies && rs[i].callId == "";
  }

  // ---- an id used twice in one answer ----

  /** The history sent next is paired, but answers one id twice. */
  lemma RepeatedIdSent(w: World, cfg: Config, x: string) returns (h: seq<Message>)
    requires Enumerates(w.order) && Roomy(cfg)
    requires w.model(0).Answer? && Named(w.model(0).calls) && !DistinctCalls(w.model(0).calls)
    requires DoneFrom(w, 0, |w.model(0).calls|)
    ensures SentIn(RunTurn(w, cfg, START, Say(x)).0.trace, h) && Paired(h) && !WellPaired(h)
  {
    var e := FirstGoesOn(w, cfg, x);
    h := Repaired(Round(w, e, 0).0.messages, w.order);
    RepeatedIdBreaks(w, e, 0);
  }

  // ---- an abandoned call ----

  /** An answer with two calls pauses at the first. Once that is denied, the model is told that the second,
      which was never run, has no result. */
  lemma SecondCallAbandoned(w: World, cfg: Config, a: ToolCall, b: ToolCall, x: string)
    returns (c: Conv, req: Request, h: seq<Message>)
    requires Enumerates(w.order) && Roomy(cfg) && FreshCalls(w)
    requires AnswersWith(w, 0, [a, b]) && w.tool(0).NeedsApproval?
    ensures c == Run(w, cfg, START, [Say(x)]) && Resumes(c, req) && ResumeOutput(w, c, req.action).Some?
    ensures SentIn(RunTurn(w, cfg, c, req).0.trace, h)
    ensures Open(h).replies == [ResumedReply(w, c, req), Reply(b.id, NO_RESULT)]
  {
    assert Named(w.model(0).calls) && w.model(0).calls[1] == b;
    FirstPause(w, cfg, x);
    OneMessage(w, cfg, x);
    c := Run(w, cfg, START, [Say(x)]);
    req := Confirm(c.pending.value.cid, "deny");
    var calls, rs;
    c, h, calls, rs := CallsAbandoned(w, cfg, [], Say(x), req);
    OneTold(w, c, req, h, calls, rs, a, b);
  }

  lemma OneTold(w: World, c: Conv, req: Request, h: seq<Message>, calls: seq<ToolCall>, rs: seq<Reply>,
                a: ToolCall, b: ToolCall)
    requires Resumes(c, req) && ResumeOutput(w, c, req.action).Some?
    requires calls == [a, b] && rs == [] && b.id != ""
    requires var told := rs + [ResumedReply(w, c, req)];
      && told <= Open(h).replies && |Open(h).replies| == |calls|
      && (forall p :: p in Open(h).replies[|told|..] ==> p.output == NO_RESULT)
      && ReplyIds(Open(h).replies[|told|..]) == CallIds(calls[|told|..])
    ensures Open(h).replies == [ResumedReply(w, c, req), Reply(b.id, NO_RESULT)]
  {
    var replies := Open(h).replies;
    assert replies[1..] == [replies[1]] && calls[1..] == [b];
    assert replies[1] in replies[1..] && replies[1].callId in ReplyIds(replies[1..]);
  }

  // ---- an id used again by a later answer ----

  /** Two answers make the same call; the first time it needs approval, the second time it is done,
      and then the model fails. */
  predicate Reuses(w: World, cfg: Config, a: ToolCall) {
    && Roomy(cfg) && a.id != ""
    && AnswersWith(w, 0, [a]) && AnswersWith(w, 1, [a]) && w.model(2).ModelError?
    && w.tool(0).NeedsApproval? && w.tool(1).Done?
  }

  /** The second message: the call is made again and answered, and the model fails. */
  lemma SecondAnswer(w: World, cfg: Config, a: ToolCall, c: Conv, y: string)
    requires Enumerates(w.order) && Reuses(w, cfg, a) && c.models == 1 && c.tools == 1
    ensures var d := RunTurn(w, cfg, c, Say(y)).0;
      && d.pending == c.pending
      && a.id in Open(d.messages).Offered() && a.id in ReplyIds(Open(d.messages).replies)
  {
    EntryTurn(w, cfg, c, Say(y));
    Entered(w, cfg, c, y);
    SecondLoop(w, cfg, a, Entry(w, cfg, c, Say(y)).value);
  }

  lemma SecondLoop(w: World, cfg: Config, a: ToolCall, e: Conv)
    requires Enumerates(w.order) && Reuses(w, cfg, a) && e.models == 1 && e.tools == 1
    ensures var d := Loop(w, cfg, e, 0).0;
      && d.pending == e.pending
      && a.id in Open(d.messages).Offered() && a.id in ReplyIds(Open(d.messages).replies)
  {
    LoopOnce(w, cfg, e, 0);
    OneDone(w, e, 0, a);
    RepairOnlyFirst(w, e, 0);
    Failing(w, cfg, Round(w, e, 0).0, 1);
    AnsweredOpen(Repaired(e.messages, w.order), w.model(1).text, a, Reply(a.id, w.tool(1).output));
  }

  lemma AnsweredOpen(h: seq<Message>, text: string, a: ToolCall, r: Reply)
    requires r.callId == a.id != ""
    ensures var b := Open(After(h, Some(Assistant(text, [a])), [r]));
      a.id in b.Offered() && a.id in ReplyIds(b.replies)
  {
    OneAnswered(a, r);
    AfterBlocks(h, Assistant(text, [a]), [r]);
  }

  lemma Failing(w: World, cfg: Config, c: Conv, step: nat)
    requires step < cfg.maxSteps && cfg.stepWarning <= 0 && w.model(c.models).ModelError?
    ensures var d := Loop(w, cfg, c, step).0;
      d.messages == Repaired(c.messages, w.order) && d.pending == c.pending
  {
  }

  lemma OneAnswered(a: ToolCall, r: Reply)
    requires r.callId == a.id != ""
    ensures a.id in CallIds([a]) && a.id in ReplyIds([r])
  {
    assert a in [a] && r in [r];
  }

  /** A call waits whose id the open turn has offered and answered. */
  predicate AnsweredWaiting(c: Conv) {
    && c.pending.Some? && c.pending.value.ToolPause?
    && c.pending.value.call.id in Open(c.messages).Offered()
    && c.pending.value.call.id in ReplyIds(Open(c.messages).replies)
  }

  /** Denied in such a state, in any run, the call is answered twice in the history sent next. */
  lemma DenialBreaks(w: World, cfg: Config, reqs: seq<Request>) returns (req: Request, h: seq<Message>)
    requires Enumerates(w.order) && AnsweredWaiting(Run(w, cfg, START, reqs))
    ensures req == Confirm(Run(w, cfg, START, reqs).pending.value.cid, "deny")
    ensures SentIn(Run(w, cfg, START, reqs + [req]).trace, h) && !WellPaired(h)
  {
    req := Confirm(Run(w, cfg, START, reqs).pending.value.cid, "deny");
    var c, r;
    c, h, r := ResultReachesIff(w, cfg, reqs, req);
    RunSnoc(w, cfg, START, reqs, req);
  }

  /** The late result of the first call leaves the second with two replies in the history sent next. */
  lemma ReusedIdBreaks(w: World, cfg: Config, a: ToolCall, x: string, y: string)
    returns (req: Request, h: seq<Message>)
    requires Enumerates(w.order) && Reuses(w, cfg, a)
    ensures SentIn(Run(w, cfg, START, [Say(x), Say(y)] + [req]).trace, h) && !WellPaired(h)
  {
    FirstPause(w, cfg, x);
    SecondAnswer(w, cfg, a, RunTurn(w, cfg, START, Say(x)).0, y);
    TwoMessages(w, cfg, x, y);
    req, h := DenialBreaks(w, cfg, [Say(x), Say(y)]);
  }
}
