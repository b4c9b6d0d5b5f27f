/** Every history handed to the model is well paired, over every run. */
module PairingSafety {
  import opened Prelude
  import opened History
  import opened ForceFix
  import opened SummaryCut
  import opened Conversation

  predicate ReplyEach(rs: seq<Reply>, calls: seq<ToolCall>) {
    |rs| <= |calls| && forall i :: 0 <= i < |rs| ==> rs[i].callId == calls[i].id
  }

  // ---- what a round does to the history ----

  /** The calls of an answer are replied to in order, up to the one that pauses or fails. */
  lemma {:induction false} CallsShape(w: World, c: Conv, calls: seq<ToolCall>, step: nat) returns (rs: seq<Reply>)
    ensures var (d, flow) := RunCalls(w, c, calls, step);
      && ReplyEach(rs, calls)
      && d.messages == c.messages + ToolMessages(rs)
      && d.models == c.models && d.trace == c.trace && d.acked == c.acked
      && (flow.Continue? ==> |rs| == |calls| && d.pending == c.pending && d.uuids == c.uuids)
      && (flow.Stop? && flow.outcome.Awaiting? ==>
            && |rs| < |calls| && d.uuids == c.uuids + 1
            && d.pending.Some? && d.pending.value.ToolPause?
            && d.pending.value.call == calls[|rs|] && d.pending.value.step == step
            && d.pending.value.cid == w.uuid(c.uuids))
      && (flow.Stop? && !flow.outcome.Awaiting? ==> d.pending == c.pending && d.uuids == c.uuids)
    decreases |calls|
  {
    rs := [];
    if calls != [] && w.tool(c.tools).Done? {
      var r := Reply(calls[0].id, w.tool(c.tools).output);
      var rest := CallsShape(w, c.(tools := c.tools + 1, messages := c.messages + [Tool(r)]), calls[1..], step);
      rs := [r] + rest;
      assert c.messages + ToolMessages(rs) == c.messages + [Tool(r)] + ToolMessages(rest);
    } else {
      assert c.messages + ToolMessages([]) == c.messages;
    }
  }

  /** The retry after a 400 sends the very history that was refused. */
  lemma RetryResends(ms: seq<Message>, order: Order)
    requires Enumerates(order)
    ensures ForceFixed(Repaired(ms, order)) == Repaired(ms, order)
  {
    RepairPairs(ms, order);
    ForceFixIdentity(Repaired(ms, order));
  }

  /** The history after an Ask is the repaired one, whether or not the model asked for a retry. */
  lemma AskShape(w: World, c: Conv, step: nat) returns (k: nat)
    requires Enumerates(w.order)
    ensures var (d, turn) := Ask(w, c, step);
      && d.messages == Repaired(c.messages, w.order)
      && c.models <= k < d.models
      && AskTrace(c.trace, d.trace, step, d.messages)
      && d.pending == c.pending && d.uuids == c.uuids && d.acked == c.acked
      && turn == AnswerTurn(w.model(k))
  {
    var h := Repaired(c.messages, w.order);
    RetryResends(c.messages, w.order);
    assert AskTrace(c.trace, c.trace + [Sent(step, false, h)], step, h);
    k := c.models;
    if w.model(k).BadRequest? {
      k := c.models + 1;
      assert Send(c, step, false, h).models == k;
      assert AskTrace(c.trace, c.trace + [Sent(step, false, h)] + [Sent(step, true, h)], step, h);
    }
  }

  /** One request, and one retry at most, with the same history. */
  predicate AskTrace(before: seq<Event>, after: seq<Event>, step: nat, h: seq<Message>) {
    || after == before + [Sent(step, false, h)]
    || after == before + [Sent(step, false, h)] + [Sent(step, true, h)]
  }

  /** A history, an answer, and the replies its calls have so far. */
  function After(h: seq<Message>, turn: Option<Turn>, rs: seq<Reply>): seq<Message> {
    if turn.None? then h else h + [Spoken(turn.value)] + ToolMessages(rs)
  }

  /** One round: the k-th model result is the answer; its calls are replied to in order until the flow stops. */
  lemma RoundShape(w: World, c: Conv, step: nat) returns (k: nat, rs: seq<Reply>)
    requires Enumerates(w.order)
    ensures var (d, flow) := Round(w, c, step);
      var turn := AnswerTurn(w.model(k));
      && d.messages == After(Repaired(c.messages, w.order), turn, rs)
      && c.models <= k < d.models && d.acked == c.acked
      && AskTrace(c.trace, d.trace, step, Repaired(c.messages, w.order))
      && (turn.None? ==> rs == []) && (turn.Some? ==> ReplyEach(rs, turn.value.calls))
      && (flow.Continue? ==> turn.Some? && |rs| == |turn.value.calls|)
      && Paused(w, c, d, flow, turn, rs, step)
  {
    k := AskShape(w, c, step);
    rs := [];
    var (c1, turn) := Ask(w, c, step);
    if turn.Some? {
      var c2 := c1.(messages := c1.messages + [Spoken(turn.value)]);
      assert c2.messages + ToolMessages([]) == c2.messages;
      if turn.value.calls != [] {
        rs := CallsShape(w, c2, turn.value.calls, step);
        assert Round(w, c, step) == RunCalls(w, c2, turn.value.calls, step);
        assert Paused(w, c, Round(w, c, step).0, Round(w, c, step).1, turn, rs, step);
      } else {
        assert Round(w, c, step) == (c2, Stop(Finished));
      }
    } else {
      assert Round(w, c, step) == (c1, Stop(Raised));
    }
  }

  /** The pending record after a round: new exactly when the round stops to wait,
      and then for the first unanswered call. */
  predicate Paused(w: World, c: Conv, d: Conv, flow: Flow, turn: Option<Turn>, rs: seq<Reply>, step: nat) {
    if flow.Stop? && flow.outcome.Awaiting? then
      && turn.Some? && turn.value.Assistant? && |rs| < |turn.value.calls| && d.uuids == c.uuids + 1
      && d.pending.Some? && d.pending.value.ToolPause?
      && d.pending.value.cid == w.uuid(c.uuids)
      && d.pending.value.call == turn.value.calls[|rs|] && d.pending.value.step == step
    else d.pending == c.pending && d.uuids == c.uuids
  }

  lemma AfterBlocks(h: seq<Message>, turn: Turn, rs: seq<Reply>)
    ensures Blocks(After(h, Some(turn), rs)) == Blocks(h) + [Block(Some(turn), rs)]
  {
    BlocksSnoc(h, Spoken(turn));
    BlocksRun(h + [Spoken(turn)], Blocks(h), Some(turn), rs);
  }

  lemma {:induction false} BlocksRun(ms: seq<Message>, front: seq<Block>, head: Option<Turn>, rs: seq<Reply>)
    requires Blocks(ms) == front + [Block(head, [])]
    ensures Blocks(ms + ToolMessages(rs)) == front + [Block(head, rs)]
  {
    if rs == [] {
      assert ms + ToolMessages(rs) == ms;
    } else {
      var k := |rs| - 1;
      BlocksRun(ms, front, head, rs[..k]);
      BlocksSnoc(ms + ToolMessages(rs[..k]), Tool(rs[k]));
      AppendReply(front, head, rs[..k], rs[k]);
      ToolMessagesSnoc(ms, rs);
    }
  }

  lemma ToolMessagesSnoc(ms: seq<Message>, rs: seq<Reply>)
    requires rs != []
    ensures var k := |rs| - 1;
      rs[..k] + [rs[k]] == rs && ms + ToolMessages(rs) == ms + ToolMessages(rs[..k]) + [Tool(rs[k])]
  {
  }

  lemma AppendReply(front: seq<Block>, head: Option<Turn>, rs: seq<Reply>, r: Reply)
    ensures Append(front + [Block(head, rs)], Tool(r)) == front + [Block(head, rs + [r])]
  {
    assert (front + [Block(head, rs)])[..|front|] == front;
  }

  // ---- the ids the model uses ----

  predicate Named(calls: seq<ToolCall>) { forall x :: 0 <= x < |calls| ==> calls[x].id != "" }

  /** No call id is empty. */
  ghost predicate NamedCalls(w: World) {
    forall j: nat :: w.model(j).Answer? ==> Named(w.model(j).calls)
  }

  predicate DistinctCalls(calls: seq<ToolCall>) {
    forall x, y :: 0 <= x < y < |calls| ==> calls[x].id != calls[y].id
  }

  /** No call id is empty or used twice, within one answer or across answers. */
  ghost predicate FreshCalls(w: World) {
    && NamedCalls(w)
    && (forall j: nat :: w.model(j).Answer? ==> DistinctCalls(w.model(j).calls))
    && (forall i: nat, j: nat :: i < j && w.model(i).Answer? && w.model(j).Answer?
          ==> CallIds(w.model(i).calls) !! CallIds(w.model(j).calls))
  }

  /** One of the first k answers requested this id. */
  ghost predicate Known(w: World, k: nat, id: string) {
    exists j: nat :: j < k && w.model(j).Answer? && id in CallIds(w.model(j).calls)
  }

  // ---- the invariant ----

  ghost predicate SoundBlock(w: World, k: nat, b: Block) {
    && Distinct(Grounded(b.replies, b.Offered()))
    && forall id :: id in b.Offered() ==> Known(w, k, id)
  }

  /** No call has two replies in its run, and every call id came from the first k answers. */
  ghost predicate SoundHistory(w: World, k: nat, ms: seq<Message>) {
    forall i :: 0 <= i < |Blocks(ms)| ==> SoundBlock(w, k, Blocks(ms)[i])
  }

  /** The call a pause waits for is an old one, and has no reply yet if it is among the last turn's calls. */
  ghost predicate SoundPending(w: World, c: Conv) {
    c.pending.Some? && c.pending.value.ToolPause? ==>
      var id := c.pending.value.call.id;
      Known(w, c.models, id) && (id in Open(c.messages).Offered() ==> id !in ReplyIds(Open(c.messages).replies))
  }

  /** Between rounds the last turn is not the one a pause waits on: the next repair would answer it. */
  ghost predicate Quiet(w: World, c: Conv) {
    c.pending.Some? && c.pending.value.ToolPause? ==>
      var id := c.pending.value.call.id;
      Known(w, c.models, id) && id !in Open(c.messages).Offered()
  }

  predicate SentPaired(trace: seq<Event>) {
    forall i :: 0 <= i < |trace| && trace[i].Sent? ==> WellPaired(trace[i].history)
  }

  ghost predicate Inv(w: World, c: Conv) {
    SoundHistory(w, c.models, c.messages) && SoundPending(w, c) && SentPaired(c.trace)
  }

  ghost predicate LoopInv(w: World, c: Conv) {
    SoundHistory(w, c.models, c.messages) && Quiet(w, c) && SentPaired(c.trace)
  }

  lemma KnownLater(w: World, k: nat, k': nat, ms: seq<Message>)
    requires k <= k' && SoundHistory(w, k, ms)
    ensures SoundHistory(w, k', ms)
  {
    forall i, id | 0 <= i < |Blocks(ms)| && id in Blocks(ms)[i].Offered()
      ensures Known(w, k', id)
    {
      assert SoundBlock(w, k, Blocks(ms)[i]);
    }
  }

  lemma ExactSound(w: World, k: nat, before: Block, after: Block)
    requires SoundBlock(w, k, before) && after.head == before.head && after.Exact()
    ensures SoundBlock(w, k, after)
  {
    GroundedAll(after.replies, after.Offered());
  }

  /** Repair makes a sound history well paired, and it stays sound; the last turn's calls are the same. */
  lemma RepairSound(w: World, k: nat, ms: seq<Message>)
    requires Enumerates(w.order) && SoundHistory(w, k, ms)
    ensures var h := Repaired(ms, w.order);
      WellPaired(h) && SoundHistory(w, k, h) && Open(h).Offered() == Open(ms).Offered()
  {
    var h := Repaired(ms, w.order);
    forall i | 0 <= i < |Blocks(ms)|
      ensures Distinct(Grounded(Blocks(ms)[i].replies, Blocks(ms)[i].Offered()))
    {
      assert SoundBlock(w, k, Blocks(ms)[i]);
    }
    RepairExactIff(ms, w.order);
    RepairMinimal(ms, w.order);
    forall i | 0 <= i < |Blocks(h)|
      ensures SoundBlock(w, k, Blocks(h)[i])
    {
      ExactSound(w, k, Blocks(ms)[i], Blocks(h)[i]);
    }
  }

  /** The block of an answer, while its calls are being replied to. */
  lemma AnswerBlock(w: World, k: nat, rs: seq<Reply>) returns (b: Block)
    requires FreshCalls(w) && w.model(k).Answer? && ReplyEach(rs, w.model(k).calls)
    ensures b == Block(AnswerTurn(w.model(k)), rs) && b.Offered() == CallIds(w.model(k).calls)
    ensures SoundBlock(w, k + 1, b)
    ensures |rs| < |w.model(k).calls| ==> w.model(k).calls[|rs|].id in b.Offered() - ReplyIds(rs)
    ensures forall id :: Known(w, k, id) ==> id !in b.Offered()
  {
    b := Block(AnswerTurn(w.model(k)), rs);
    PartlyAnswered(w.model(k).calls, rs);
    GroundedAll(rs, b.Offered());
    forall id | id in b.Offered()
      ensures Known(w, k + 1, id)
    {
    }
  }

  /** Calls replied to in order, up to some point: the next one is offered and not yet answered. */
  lemma PartlyAnswered(calls: seq<ToolCall>, rs: seq<Reply>)
    requires ReplyEach(rs, calls) && DistinctCalls(calls) && Named(calls)
    ensures ReplyIds(rs) <= CallIds(calls) && Distinct(rs)
    ensures |rs| < |calls| ==> calls[|rs|].id in CallIds(calls) - ReplyIds(rs)
  {
    forall r | r in rs
      ensures r.callId in CallIds(calls)
    {
      var i :| 0 <= i < |rs| && rs[i] == r;
      assert calls[i] in calls;
    }
  }

  lemma AskSentPaired(before: seq<Event>, after: seq<Event>, step: nat, h: seq<Message>)
    requires SentPaired(before) && WellPaired(h) && AskTrace(before, after, step, h)
    ensures SentPaired(after)
  {
  }

  lemma AnsweredSound(w: World, k: nat, h: seq<Message>, rs: seq<Reply>)
    requires FreshCalls(w) && w.model(k).Answer? && ReplyEach(rs, w.model(k).calls)
    requires SoundHistory(w, k + 1, h)
    ensures SoundHistory(w, k + 1, After(h, AnswerTurn(w.model(k)), rs))
    ensures Open(After(h, AnswerTurn(w.model(k)), rs)) == Block(AnswerTurn(w.model(k)), rs)
  {
    AfterBlocks(h, AnswerTurn(w.model(k)).value, rs);
    var b := AnswerBlock(w, k, rs);
    var bs, cs := Blocks(h), Blocks(After(h, AnswerTurn(w.model(k)), rs));
    assert cs == bs + [b];
    forall i | 0 <= i < |cs|
      ensures SoundBlock(w, k + 1, cs[i])
    {
      assert i < |bs| ==> SoundBlock(w, k + 1, bs[i]);
    }
  }

  /** A round keeps the invariant; when it does not stop, the stronger one. */
  lemma RoundKeeps(w: World, c: Conv, step: nat)
    requires Enumerates(w.order) && FreshCalls(w) && LoopInv(w, c)
    ensures Inv(w, Round(w, c, step).0)
    ensures Round(w, c, step).1.Continue? ==> LoopInv(w, Round(w, c, step).0)
  {
    var (d, flow) := Round(w, c, step);
    var k, rs := RoundShape(w, c, step);
    var h, turn := Repaired(c.messages, w.order), AnswerTurn(w.model(k));
    RepairSound(w, c.models, c.messages);
    AskSentPaired(c.trace, d.trace, step, h);
    KnownLater(w, c.models, k + 1, h);
    if turn.Some? {
      AnsweredSound(w, k, h, rs);
      var b := AnswerBlock(w, k, rs);
    }
    KnownLater(w, k + 1, d.models, d.messages);
    PendingKeeps(w, c, d, k, rs, flow, step);
  }

  lemma KnownMono(w: World, k: nat, k': nat, id: string)
    requires k <= k' && Known(w, k, id)
    ensures Known(w, k', id)
  {
  }

  lemma PendingKeeps(w: World, c: Conv, d: Conv, k: nat, rs: seq<Reply>, flow: Flow, step: nat)
    requires FreshCalls(w) && Quiet(w, c) && c.models <= k < d.models
    requires var turn := AnswerTurn(w.model(k));
      && (turn.Some? ==> ReplyEach(rs, turn.value.calls) && Open(d.messages) == Block(turn, rs))
      && (turn.None? ==> Open(d.messages).Offered() == Open(c.messages).Offered())
      && Paused(w, c, d, flow, turn, rs, step)
    ensures SoundPending(w, d)
    ensures flow.Continue? ==> Quiet(w, d)
  {
    if w.model(k).Answer? {
      var b := AnswerBlock(w, k, rs);
      if flow.Stop? && flow.outcome.Awaiting? {
        assert Known(w, k + 1, d.pending.value.call.id);
        KnownMono(w, k + 1, d.models, d.pending.value.call.id);
      } else if d.pending.Some? && d.pending.value.ToolPause? {
        KnownMono(w, c.models, k, d.pending.value.call.id);
        KnownMono(w, c.models, d.models, d.pending.value.call.id);
      }
    } else if d.pending.Some? && d.pending.value.ToolPause? {
      KnownMono(w, c.models, d.models, d.pending.value.call.id);
    }
  }

  lemma {:induction false} LoopKeeps(w: World, cfg: Config, c: Conv, step: nat)
    requires Enumerates(w.order) && FreshCalls(w) && LoopInv(w, c)
    ensures Inv(w, Loop(w, cfg, c, step).0)
    decreases cfg.maxSteps - step
  {
    if step < cfg.maxSteps && !(cfg.stepWarning > 0 && step - c.acked >= cfg.stepWarning) {
      RoundKeeps(w, c, step);
      if Round(w, c, step).1.Continue? {
        LoopKeeps(w, cfg, Round(w, c, step).0, step + 1);
      }
    }
  }

  lemma UserAppended(w: World, k: nat, ms: seq<Message>, text: string)
    requires SoundHistory(w, k, ms)
    ensures SoundHistory(w, k, ms + [Spoken(User(text))])
    ensures Open(ms + [Spoken(User(text))]) == Block(Some(User(text)), [])
  {
    BlocksSnoc(ms, Spoken(User(text)));
  }

  lemma CutSound(w: World, k: nat, ms: seq<Message>, keep: nat)
    requires SoundHistory(w, k, ms) && |UserIndexes(ms)| > keep
    ensures SoundHistory(w, k, ms[Cut(ms, keep)..])
    ensures Open(ms[Cut(ms, keep)..]) == Open(ms)
  {
    var a, b := ms[..Cut(ms, keep)], ms[Cut(ms, keep)..];
    assert ms == a + b;
    SuffixBlocks(a, b);
    forall i | 0 <= i < |Blocks(b)|
      ensures SoundBlock(w, k, Blocks(b)[i])
    {
      assert i > 0 ==> Blocks(b)[i] == Blocks(ms)[|Blocks(a)| + i - 1];
    }
  }

  lemma SayKeeps(w: World, cfg: Config, c: Conv, text: string)
    requires Enumerates(w.order) && FreshCalls(w) && Inv(w, c)
    ensures Inv(w, RunTurn(w, cfg, c, Say(text)).0)
  {
    var c1 := c.(messages := c.messages + [Spoken(User(text))]);
    UserAppended(w, c.models, c.messages, text);
    assert Open(c1.messages).Offered() == {};
    if |UserIndexes(c1.messages)| > cfg.keepTurns {
      CutSound(w, c.models, c1.messages, cfg.keepTurns);
    }
    LoopKeeps(w, cfg, Summarised(w, cfg, c1), 0);
  }

  /** A reply joins a block: it does not count, or it is the first for its call. */
  lemma ReplyJoins(w: World, k: nat, b: Block, r: Reply)
    requires SoundBlock(w, k, b)
    requires r.callId in b.Offered() ==> r.callId !in ReplyIds(b.replies)
    ensures SoundBlock(w, k, Block(b.head, b.replies + [r]))
  {
    var g := Grounded(b.replies, b.Offered());
    assert (b.replies + [r])[..|b.replies|] == b.replies && g + [] == g;
    GroundedIds(b.replies, b.Offered());
    assert forall x :: x in g ==> x.callId in ReplyIds(g);
  }

  /** The reply of a resumed call, wherever it lands. */
  lemma ReplyAppended(w: World, k: nat, ms: seq<Message>, r: Reply)
    requires SoundHistory(w, k, ms)
    requires r.callId in Open(ms).Offered() ==> r.callId !in ReplyIds(Open(ms).replies)
    ensures SoundHistory(w, k, ms + [Tool(r)])
  {
    BlocksSnoc(ms, Tool(r));
    ReplyJoins(w, k, Open(ms), r);
  }

  lemma ExecuteShape(w: World, c: Conv, p: Pending)
    requires p.ToolPause?
    ensures var d := Execute(w, c, p).0;
      && d.messages == c.messages && d.pending == c.pending && d.models == c.models
      && d.acked == c.acked && d.uuids == c.uuids
      && (d.trace == c.trace || d.trace == c.trace + [Executed(p.cid, p.command)])
  {
  }

  lemma SentPairedSnoc(trace: seq<Event>, e: Event)
    requires SentPaired(trace) && !e.Sent?
    ensures SentPaired(trace + [e])
  {
  }

  lemma ResumeKeeps(w: World, cfg: Config, c: Conv, p: Pending, action: string)
    requires Enumerates(w.order) && FreshCalls(w) && c.pending.None?
    requires Inv(w, c.(pending := Some(p)))
    ensures Inv(w, Resume(w, cfg, c, p, action).0)
  {
    var c1 := c.(trace := c.trace + [Resumed(p, action)]);
    SentPairedSnoc(c.trace, Resumed(p, action));
    if p.StepPause? {
      LoopKeeps(w, cfg, c1.(acked := p.step), p.step);
    } else {
      var (c2, output) := if action == "approve" then Execute(w, c1, p) else (c1, Some(Denied(p.command)));
      ExecuteShape(w, c1, p);
      SentPairedSnoc(c1.trace, Executed(p.cid, p.command));
      if output.Some? {
        var r := Reply(p.call.id, output.value);
        ReplyAppended(w, c.models, c.messages, r);
        LoopKeeps(w, cfg, c2.(messages := c2.messages + [Tool(r)]), p.step);
      }
    }
  }

  lemma TurnKeeps(w: World, cfg: Config, c: Conv, req: Request)
    requires Enumerates(w.order) && FreshCalls(w) && Inv(w, c)
    ensures Inv(w, RunTurn(w, cfg, c, req).0)
  {
    match req
    case Say(text) => SayKeeps(w, cfg, c, text);
    case Confirm(id, action) =>
      if c.pending.Some? && c.pending.value.cid == id {
        assert c.(pending := None).(pending := Some(c.pending.value)) == c;
        ResumeKeeps(w, cfg, c.(pending := None), c.pending.value, action);
      }
  }

  lemma {:induction false} RunKeeps(w: World, cfg: Config, reqs: seq<Request>)
    requires Enumerates(w.order) && FreshCalls(w)
    ensures Inv(w, Run(w, cfg, START, reqs))
  {
    if reqs == [] {
      assert Blocks([]) == [Block(None, [])];
    } else {
      RunKeeps(w, cfg, reqs[..|reqs| - 1]);
      TurnKeeps(w, cfg, Run(w, cfg, START, reqs[..|reqs| - 1]), reqs[|reqs| - 1]);
    }
  }

  /** Main result. Over every run of messages, approvals, denials, wrong or late confirmations, errors and
      summaries: if the model never reuses a call id, every history it is given has exactly one reply for
      each call, in the run right after that call's turn, and no other tool message. */
  lemma EverySentWellPaired(w: World, cfg: Config, reqs: seq<Request>, i: nat)
    requires Enumerates(w.order) && FreshCalls(w)
    requires i < |Run(w, cfg, START, reqs).trace| && Run(w, cfg, START, reqs).trace[i].Sent?
    ensures WellPaired(Run(w, cfg, START, reqs).trace[i].history)
    ensures PairedByIndex(Run(w, cfg, START, reqs).trace[i].history)
  {
    RunKeeps(w, cfg, reqs);
    PairedMeaning(Run(w, cfg, START, reqs).trace[i].history);
  }
}
