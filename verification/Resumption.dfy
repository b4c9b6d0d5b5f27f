/** What becomes of a paused tool call once the user answers: whether its result reaches the model,
    and what the model is told of the calls after it. */
module Resumption {
  import opened Prelude
  import opened History
  import opened MessageLists
  import opened Conversation
  import opened PairingSafety
  import opened TraceSafety
  import opened RepeatedIds

  // ---- a resumed pause always sends a history ----

  /** A loop at this step goes on to a model round. */
  predicate Within(cfg: Config, acked: int, step: nat) {
    step < cfg.maxSteps && (cfg.stepWarning > 0 ==> step - acked < cfg.stepWarning)
  }

  lemma LoopFirst(w: World, cfg: Config, c: Conv, step: nat)
    requires Enumerates(w.order) && Within(cfg, c.acked, step)
    ensures var t := Loop(w, cfg, c, step).0.trace;
      |c.trace| < |t| && t[|c.trace|].Sent? && t[|c.trace|].history == Repaired(c.messages, w.order)
  {
    var delta := RoundSends(w, c, step);
    if Round(w, c, step).1.Continue? {
      var rest := LoopTrace(w, cfg, Round(w, c, step).0, step + 1);
      assert (c.trace + delta + rest)[|c.trace|] == delta[0];
    }
  }

  lemma {:induction false} LoopPausesWithin(w: World, cfg: Config, c: Conv, step: nat)
    requires Enumerates(w.order)
    ensures var (d, out) := Loop(w, cfg, c, step);
      out.Awaiting? && d.pending.Some? && d.pending.value.ToolPause? ==> Within(cfg, c.acked, d.pending.value.step)
    decreases cfg.maxSteps - step
  {
    if Within(cfg, c.acked, step) {
      var k, rs := RoundShape(w, c, step);
      if Round(w, c, step).1.Continue? {
        LoopPausesWithin(w, cfg, Round(w, c, step).0, step + 1);
      }
    }
  }

  /** In every reachable state, resuming a paused call goes on to a model round. */
  lemma {:induction false} PauseWithin(w: World, cfg: Config, reqs: seq<Request>)
    requires Enumerates(w.order)
    ensures var c := Run(w, cfg, START, reqs);
      c.pending.Some? && c.pending.value.ToolPause? ==> Within(cfg, c.acked, c.pending.value.step)
    decreases |reqs|
  {
    if reqs != [] {
      var n := |reqs| - 1;
      var c, req := Run(w, cfg, START, reqs[..n]), reqs[n];
      PauseWithin(w, cfg, reqs[..n]);
      EntryTurn(w, cfg, c, req);
      var delta := TurnTrace(w, cfg, c, req);
      if Entry(w, cfg, c, req).Some? {
        LoopPausesWithin(w, cfg, Entry(w, cfg, c, req).value, FirstStep(c, req));
      }
    }
  }

  /** What the model would be told of the paused call. None is an exception. */
  function ResumeOutput(w: World, c: Conv, action: string): Option<string>
    requires c.pending.Some? && c.pending.value.ToolPause?
  {
    if action == "approve" then Execute(w, c, c.pending.value).1 else Some(Denied(c.pending.value.command))
  }

  /** The confirmation of the tool call that is waiting. */
  predicate Resumes(c: Conv, req: Request) {
    Matches(c, req) && c.pending.value.ToolPause?
  }

  function ResumedReply(w: World, c: Conv, req: Request): Reply
    requires Resumes(c, req) && ResumeOutput(w, c, req.action).Some?
  {
    Reply(c.pending.value.call.id, ResumeOutput(w, c, req.action).value)
  }

  /** The loop is entered with the reply appended, and without a further tool call. */
  lemma ResumedEntry(w: World, cfg: Config, c: Conv, req: Request)
    requires Resumes(c, req)
    ensures Entry(w, cfg, c, req).Some? <==> ResumeOutput(w, c, req.action).Some?
    ensures ResumeOutput(w, c, req.action).Some? ==>
      var e := Entry(w, cfg, c, req).value;
      e.messages == c.messages + [Tool(ResumedReply(w, c, req))] && e.tools == c.tools
  {
  }

  /** The first history sent after a resumed pause, in any run. */
  lemma FirstSent(w: World, cfg: Config, reqs: seq<Request>, req: Request) returns (c: Conv, t: seq<Event>, k: nat)
    requires Enumerates(w.order) && Resumes(Run(w, cfg, START, reqs), req)
    ensures c == Run(w, cfg, START, reqs) && t == RunTurn(w, cfg, c, req).0.trace
    ensures k == |c.trace + RequestHead(c, req)|
    ensures if ResumeOutput(w, c, req.action).None? then |t| == k
            else k < |t| && t[k].Sent?
                 && t[k].history == Repaired(c.messages + [Tool(ResumedReply(w, c, req))], w.order)
  {
    c := Run(w, cfg, START, reqs);
    t := RunTurn(w, cfg, c, req).0.trace;
    k := |c.trace + RequestHead(c, req)|;
    PauseWithin(w, cfg, reqs);
    ResumedEntry(w, cfg, c, req);
    EntryTurn(w, cfg, c, req);
    if Entry(w, cfg, c, req).Some? {
      LoopFirst(w, cfg, Entry(w, cfg, c, req).value, c.pending.value.step);
    }
  }

  // ---- does the result reach the model? ----

  lemma OpenRepaired(ms: seq<Message>, order: Order)
    requires Enumerates(order)
    ensures var b, kept := Open(ms), Open(Repaired(ms, order));
      kept.head == b.head && kept.Balanced() && Grounded(b.replies, b.Offered()) <= kept.replies
  {
    RepairMinimal(ms, order);
    RepairPairs(ms, order);
  }

  lemma OpenWith(ms: seq<Message>, r: Reply)
    ensures Open(ms + [Tool(r)]) == Block(Open(ms).head, Open(ms).replies + [r])
  {
    BlocksSnoc(ms, Tool(r));
  }

  lemma InPrefix(a: seq<Reply>, r: Reply, b: seq<Reply>)
    requires a + [r] <= b
    ensures r in b
  {
    assert (a + [r])[|a|] == r;
  }

  /** A reply survives the next repair exactly when the open turn offers its call;
      otherwise the repair is that of the list without it. */
  lemma ReplyKeptIff(ms: seq<Message>, r: Reply, order: Order)
    requires Enumerates(order)
    ensures r in Open(Repaired(ms + [Tool(r)], order)).replies <==> r.callId in Open(ms).Offered()
    ensures r.callId !in Open(ms).Offered() ==> Repaired(ms + [Tool(r)], order) == Repaired(ms, order)
  {
    OpenWith(ms, r);
    OpenRepaired(ms + [Tool(r)], order);
    GroundedSnoc(Open(ms).replies, r, Open(ms).Offered());
    var kept := Open(Repaired(ms + [Tool(r)], order)).replies;
    if r.callId in Open(ms).Offered() {
      InPrefix(Grounded(Open(ms).replies, Open(ms).Offered()), r, kept);
    } else {
      assert r in kept ==> r.callId in ReplyIds(kept);
      LostReply(ms, r, order);
    }
  }

  lemma LostReply(ms: seq<Message>, r: Reply, order: Order)
    requires r.callId !in Open(ms).Offered()
    ensures Repaired(ms + [Tool(r)], order) == Repaired(ms, order)
  {
    BlocksSnoc(ms, Tool(r));
    DropAppend(Blocks(ms), Tool(r));
  }

  /** Main result. When a pause is resumed, in any run, its result reaches the model exactly when the open turn
      offers the paused call. Otherwise, after a new message for instance, the model is sent the history it would
      have been sent without it. */
  lemma ResultReachesIff(w: World, cfg: Config, reqs: seq<Request>, req: Request)
    returns (c: Conv, h: seq<Message>, r: Reply)
    requires Enumerates(w.order) && Resumes(Run(w, cfg, START, reqs), req)
    requires ResumeOutput(w, Run(w, cfg, START, reqs), req.action).Some?
    ensures c == Run(w, cfg, START, reqs) && r == ResumedReply(w, c, req)
    ensures var t, k := RunTurn(w, cfg, c, req).0.trace, |c.trace + RequestHead(c, req)|;
      k < |t| && t[k].Sent? && h == t[k].history
    ensures r in Open(h).replies <==> r.callId in Open(c.messages).Offered()
    ensures r.callId !in Open(c.messages).Offered() ==> h == Repaired(c.messages, w.order)
    ensures var open := Open(c.messages);
      WellPaired(h) <==> NoDoubles(c.messages) && !(r.callId in open.Offered() && r.callId in ReplyIds(open.replies))
  {
    var t, k;
    c, t, k := FirstSent(w, cfg, reqs, req);
    h, r := t[k].history, ResumedReply(w, c, req);
    ReplyKeptIff(c.messages, r, w.order);
    LateReplyExactIff(c.messages, r, w.order);
  }

  // ---- the calls after it ----

  /** An answer whose first calls are replied to: the model is told of each of the others that it has no result. */
  lemma LaterCallsAbandoned(h: seq<Message>, text: string, calls: seq<ToolCall>, rs: seq<Reply>, order: Order)
    requires Enumerates(order) && ReplyEach(rs, calls) && DistinctCalls(calls) && Named(calls)
    ensures var b := Open(Repaired(After(h, Some(Assistant(text, calls)), rs), order));
      && b.head == Some(Assistant(text, calls))
      && rs <= b.replies && |b.replies| == |calls|
      && (forall p :: p in b.replies[|rs|..] ==> p.output == NO_RESULT)
      && ReplyIds(b.replies[|rs|..]) == CallIds(calls[|rs|..])
  {
    var ms := After(h, Some(Assistant(text, calls)), rs);
    AfterBlocks(h, Assistant(text, calls), rs);
    OwedCalls(calls, rs);
    OpenFilled(ms, order);
    RepairMinimal(ms, order);
  }

  /** The repair of the block still open: its replies stay, the calls not yet answered get placeholders. */
  lemma OpenFilled(ms: seq<Message>, order: Order)
    requires Enumerates(order) && ReplyIds(Open(ms).replies) <= Open(ms).Offered()
    ensures var b, replies := Open(ms), Open(Repaired(ms, order)).replies;
      && b.replies <= replies
      && |replies| == |b.replies| + |b.Offered() - ReplyIds(b.replies)|
      && ReplyIds(replies[|b.replies|..]) == b.Offered() - ReplyIds(b.replies)
      && forall p :: p in replies[|b.replies|..] ==> p.output == NO_RESULT
  {
    RepairMinimal(ms, order);
    GroundedAll(Open(ms).replies, Open(ms).Offered());
  }

  /** When the calls are answered in order, the ids still owed are those of the calls not reached. */
  lemma OwedCalls(calls: seq<ToolCall>, rs: seq<Reply>)
    requires ReplyEach(rs, calls) && DistinctCalls(calls) && Named(calls)
    ensures ReplyIds(rs) <= CallIds(calls) && CallIds(calls) - ReplyIds(rs) == CallIds(calls[|rs|..])
    ensures |CallIds(calls[|rs|..])| == |calls| - |rs|
  {
    AllAnswered(calls[..|rs|], rs);
    SplitIds(calls, |rs|);
    DistinctIds(calls[|rs|..]);
  }

  lemma SplitIds(calls: seq<ToolCall>, n: nat)
    requires n <= |calls| && DistinctCalls(calls) && Named(calls)
    ensures CallIds(calls) == CallIds(calls[..n]) + CallIds(calls[n..]) && CallIds(calls[..n]) !! CallIds(calls[n..])
    ensures DistinctCalls(calls[n..])
  {
    assert calls == calls[..n] + calls[n..];
    forall a, b | a in calls[..n] && b in calls[n..]
      ensures a.id != b.id
    {
      var i :| 0 <= i < n && calls[i] == a;
      var j :| 0 <= j < |calls| - n && calls[n..][j] == b;
      assert calls[n + j] == b;
    }
  }

  lemma {:induction false} DistinctIds(calls: seq<ToolCall>)
    requires DistinctCalls(calls) && Named(calls)
    ensures |CallIds(calls)| == |calls|
  {
    if calls != [] {
      var n := |calls| - 1;
      DistinctIds(calls[..n]);
      SplitIds(calls, n);
      assert CallIds(calls[n..]) == {calls[n].id};
    }
  }

  /** A loop that stops to wait for a tool call leaves the answer open at that call. */
  lemma {:induction false} LoopLeavesOpen(w: World, cfg: Config, c: Conv, step: nat)
    returns (h: seq<Message>, k: nat, rs: seq<Reply>)
    requires Enumerates(w.order)
    requires var (d, out) := Loop(w, cfg, c, step);
      out.Awaiting? && d.pending.Some? && d.pending.value.ToolPause?
    ensures var d := Loop(w, cfg, c, step).0;
      OpenAt(w, d, h, k, rs)
    decreases cfg.maxSteps - step
  {
    h, k, rs := [], 0, [];
    if Within(cfg, c.acked, step) {
      k, rs := RoundShape(w, c, step);
      h := Repaired(c.messages, w.order);
      if Round(w, c, step).1.Continue? {
        h, k, rs := LoopLeavesOpen(w, cfg, Round(w, c, step).0, step + 1);
      }
    }
  }

  /** The last message is the k-th answer with the replies to its first calls; the next call is the paused one. */
  predicate OpenAt(w: World, d: Conv, h: seq<Message>, k: nat, rs: seq<Reply>) {
    && w.model(k).Answer? && ReplyEach(rs, w.model(k).calls) && |rs| < |w.model(k).calls|
    && d.messages == After(h, AnswerTurn(w.model(k)), rs)
    && d.pending.Some? && d.pending.value.ToolPause? && d.pending.value.call == w.model(k).calls[|rs|]
  }

  lemma RunSnoc(w: World, cfg: Config, c: Conv, reqs: seq<Request>, req: Request)
    ensures Run(w, cfg, c, reqs + [req]) == RunTurn(w, cfg, Run(w, cfg, c, reqs), req).0
  {
    assert (reqs + [req])[..|reqs|] == reqs;
  }

  /** The state of a run in which a request has just ended in a pause for a tool call. */
  lemma TurnLeavesOpen(w: World, cfg: Config, reqs: seq<Request>, first: Request)
    returns (c: Conv, h: seq<Message>, k: nat, rs: seq<Reply>)
    requires Enumerates(w.order) && RunTurn(w, cfg, Run(w, cfg, START, reqs), first).1.Awaiting?
    requires var p := Run(w, cfg, START, reqs + [first]).pending; p.Some? && p.value.ToolPause?
    ensures c == Run(w, cfg, START, reqs + [first]) && OpenAt(w, c, h, k, rs)
  {
    var before := Run(w, cfg, START, reqs);
    c := Run(w, cfg, START, reqs + [first]);
    RunSnoc(w, cfg, START, reqs, first);
    EntryTurn(w, cfg, before, first);
    h, k, rs := LoopLeavesOpen(w, cfg, Entry(w, cfg, before, first).value, FirstStep(before, first));
  }

  /** Main result. A request ends in a pause at one of an answer's calls, and the next one resumes it. No tool is
      called before the model is: it is sent the replies so far, the paused call's result, and for each of the calls
      after it a reply that there is no result. */
  lemma CallsAbandoned(w: World, cfg: Config, reqs: seq<Request>, first: Request, req: Request)
    returns (c: Conv, h: seq<Message>, calls: seq<ToolCall>, rs: seq<Reply>)
    requires Enumerates(w.order) && NamedCalls(w)
    requires forall j: nat :: w.model(j).Answer? ==> DistinctCalls(w.model(j).calls)
    requires RunTurn(w, cfg, Run(w, cfg, START, reqs), first).1.Awaiting?
    requires Resumes(Run(w, cfg, START, reqs + [first]), req)
    requires ResumeOutput(w, Run(w, cfg, START, reqs + [first]), req.action).Some?
    ensures c == Run(w, cfg, START, reqs + [first])
    ensures Entry(w, cfg, c, req).Some? && Entry(w, cfg, c, req).value.tools == c.tools
    ensures var t, k := RunTurn(w, cfg, c, req).0.trace, |c.trace + RequestHead(c, req)|;
      k < |t| && t[k].Sent? && h == t[k].history
    ensures Open(h).head.Some? && Open(h).head.value.Assistant? && Open(h).head.value.calls == calls
    ensures |rs| < |calls| && c.pending.value.call == calls[|rs|]
    ensures Open(c.messages) == Block(Open(h).head, rs)
    ensures var told := rs + [ResumedReply(w, c, req)];
      && told <= Open(h).replies && |Open(h).replies| == |calls|
      && (forall p :: p in Open(h).replies[|told|..] ==> p.output == NO_RESULT)
      && ReplyIds(Open(h).replies[|told|..]) == CallIds(calls[|told|..])
  {
    var h0, j, t, k;
    c, h0, j, rs := TurnLeavesOpen(w, cfg, reqs, first);
    calls := w.model(j).calls;
    c, t, k := FirstSent(w, cfg, reqs + [first], req);
    h := t[k].history;
    ResumedEntry(w, cfg, c, req);
    var told := rs + [ResumedReply(w, c, req)];
    AfterSnoc(h0, AnswerTurn(w.model(j)), rs, ResumedReply(w, c, req));
    AfterBlocks(h0, AnswerTurn(w.model(j)).value, rs);
    LaterCallsAbandoned(h0, w.model(j).text, calls, told, w.order);
  }

  lemma AfterSnoc(h: seq<Message>, turn: Option<Turn>, rs: seq<Reply>, r: Reply)
    requires turn.Some?
    ensures After(h, turn, rs) + [Tool(r)] == After(h, turn, rs + [r])
  {
    assert ToolMessages(rs + [r]) == ToolMessages(rs) + [Tool(r)];
  }
}
