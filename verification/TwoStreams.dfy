/** Two streams on one session: the first to wake repairs away the second's pause, whose own reply then comes twice. */
module TwoStreams {
  import opened Prelude
  import opened History
  import opened Conversation
  import opened PairingSafety
  import opened RepeatedIds
  import opened Resumption
  import opened FailingRuns
  import opened MixedRuns

  /** Both answers make one call that needs approval, and then the model fails once. */
  ghost predicate Overlaps(w: World, cfg: Config, a: ToolCall, b: ToolCall) {
    && Roomy(cfg) && (forall k: nat :: w.line(k))
    && AnswersWith(w, 0, [a]) && AnswersWith(w, 1, [b]) && w.model(2).ModelError? && b.id != ""
    && w.tool(0).NeedsApproval? && w.tool(1).NeedsApproval?
  }

  /** A stream whose answer has one call, which needs approval, waits at it. */
  lemma StreamPauses(w: World, cfg: Config, m: Mixed, t: nat, text: string, a: ToolCall)
    requires Roomy(cfg) && (forall k: nat :: w.line(k)) && t < |m.frames| && m.frames[t].None?
    requires AnswersWith(w, m.c.models, [a]) && w.tool(m.c.tools).NeedsApproval?
    ensures var d := Step(w, cfg, m, StreamMessage(t, text));
      && d.c.models == m.c.models + 1 && d.c.tools == m.c.tools + 1
      && |d.frames| == |m.frames| && (forall u :: 0 <= u < |m.frames| && u != t ==> d.frames[u] == m.frames[u])
      && WaitsAt(d, t, a)
      && Open(d.c.messages) == Block(AnswerTurn(w.model(m.c.models)), [])
  {
    var c := Summarised(w, cfg, m.c.(messages := m.c.messages + [Spoken(User(text))]));
    assert c.models == m.c.models && c.tools == m.c.tools;
    RoundPauses(w, c, 0, c.acked, a);
    assert StreamLoop(w, cfg, c, 0, c.acked) == StreamRound(w, c, 0, c.acked);
  }

  predicate WaitsAt(m: Mixed, t: nat, a: ToolCall) {
    && t < |m.frames| && m.frames[t].Some? && m.frames[t].value.AtCall?
    && m.frames[t].value.call == a && m.frames[t].value.rest == [] && m.frames[t].value.step == 0
  }

  lemma RoundPauses(w: World, c: Conv, step: nat, warned: int, a: ToolCall)
    requires AnswersWith(w, c.models, [a]) && w.tool(c.tools).NeedsApproval?
    ensures var (d, halt) := StreamRound(w, c, step, warned);
      && halt.Waits? && halt.frame.AtCall? && halt.frame.call == a && halt.frame.rest == [] && halt.frame.step == step
      && d.models == c.models + 1 && d.tools == c.tools + 1
      && Open(d.messages) == Block(AnswerTurn(w.model(c.models)), [])
  {
    var turn := AnswerTurn(w.model(c.models)).value;
    assert [a][1..] == [];
    BlocksSnoc(Repaired(c.messages, w.order), Spoken(turn));
  }

  /** The wait is over at a call that was the last of its answer: its reply is appended, and the next step follows. */
  lemma LastCallWakes(w: World, cfg: Config, m: Mixed, t: nat, a: ToolCall) returns (c: Conv, r: Reply)
    requires WaitsAt(m, t, a)
    ensures r.callId == a.id
    ensures c == m.c.(pending := None, messages := m.c.messages + [Tool(r)])
    ensures Step(w, cfg, m, TimeUp(t)) ==
            Parked(w, m.(event := None), t, StreamLoop(w, cfg, c, 1, m.frames[t].value.warned))
  {
    r := Reply(a.id, TimedOut(m.frames[t].value.command));
    c := m.c.(pending := None, messages := m.c.messages + [Tool(r)]);
  }

  /** The model fails: the stream ends, and the list has been repaired. */
  lemma FailingStream(w: World, cfg: Config, c: Conv, step: nat, warned: int)
    requires step < cfg.maxSteps && cfg.stepWarning <= 0 && w.model(c.models).ModelError?
    ensures var (d, halt) := StreamLoop(w, cfg, c, step, warned);
      halt.Ends? && d.messages == Repaired(c.messages, w.order)
  {
  }

  lemma {:induction false} StreamCallsSilent(w: World, c: Conv, calls: seq<ToolCall>, step: nat, warned: int)
    ensures StreamCalls(w, c, calls, step, warned).0.trace == c.trace
    decreases |calls|
  {
    if calls != [] && w.tool(c.tools).Done? {
      var r := Reply(calls[0].id, w.tool(c.tools).output);
      StreamCallsSilent(w, c.(tools := c.tools + 1, messages := c.messages + [Tool(r)]), calls[1..], step, warned);
    }
  }

  lemma {:induction false} StreamLoopGrows(w: World, cfg: Config, c: Conv, step: nat, warned: int)
    ensures c.trace <= StreamLoop(w, cfg, c, step, warned).0.trace
    decreases cfg.maxSteps - step
  {
    if step < cfg.maxSteps && !(cfg.stepWarning > 0 && step - warned >= cfg.stepWarning) {
      StreamRoundGrows(w, c, step, warned);
      var (c1, halt) := StreamRound(w, c, step, warned);
      if halt.Goes? {
        StreamLoopGrows(w, cfg, c1, step + 1, warned);
      }
    }
  }

  /** A round adds the repaired history to the trace. */
  lemma StreamRoundGrows(w: World, c: Conv, step: nat, warned: int)
    ensures c.trace + [Sent(step, false, Repaired(c.messages, w.order))] <= StreamRound(w, c, step, warned).0.trace
  {
    var (c1, turn) := Ask(w, c, step);
    if turn.Some? {
      var c2 := c1.(messages := c1.messages + [Spoken(turn.value)]);
      StreamCallsSilent(w, c2, turn.value.calls, step, warned);
    }
  }

  lemma StreamSends(w: World, cfg: Config, c: Conv, step: nat, warned: int)
    requires step < cfg.maxSteps && cfg.stepWarning <= 0
    ensures SentIn(StreamLoop(w, cfg, c, step, warned).0.trace, Repaired(c.messages, w.order))
  {
    StreamRoundGrows(w, c, step, warned);
    var (c1, halt) := StreamRound(w, c, step, warned);
    var sent := c.trace + [Sent(step, false, Repaired(c.messages, w.order))];
    if halt.Goes? {
      StreamLoopGrows(w, cfg, c1, step + 1, warned);
    }
    var t := StreamLoop(w, cfg, c, step, warned).0.trace;
    assert sent <= t;
    assert t[|c.trace|] == sent[|c.trace|];
  }

  /** The first wait runs out: the second call has a reply now, although its stream still waits. */
  lemma FirstTimesOut(w: World, cfg: Config, m: Mixed, a: ToolCall, b: ToolCall)
    requires Enumerates(w.order) && Overlaps(w, cfg, a, b) && m.c.models == 2
    requires WaitsAt(m, 0, a) && WaitsAt(m, 1, b) && Open(m.c.messages) == Block(AnswerTurn(w.model(1)), [])
    ensures var d := Step(w, cfg, m, TimeUp(0));
      && WaitsAt(d, 1, b)
      && b.id in Open(d.c.messages).Offered() && b.id in ReplyIds(Open(d.c.messages).replies)
  {
    var c, r := LastCallWakes(w, cfg, m, 0, a);
    FailingStream(w, cfg, c, 1, m.frames[0].value.warned);
    OpenWith(m.c.messages, r);
    OpenRepaired(c.messages, w.order);
    assert b in [b];
  }

  /** The second wait runs out: its reply is a second one, and is sent. */
  lemma SecondTimesOut(w: World, cfg: Config, m: Mixed, b: ToolCall) returns (h: seq<Message>)
    requires Enumerates(w.order) && Roomy(cfg) && WaitsAt(m, 1, b)
    requires b.id in Open(m.c.messages).Offered() && b.id in ReplyIds(Open(m.c.messages).replies)
    ensures SentIn(Step(w, cfg, m, TimeUp(1)).c.trace, h) && !WellPaired(h)
  {
    var c, r := LastCallWakes(w, cfg, m, 1, b);
    h := Repaired(c.messages, w.order);
    StreamSends(w, cfg, c, 1, m.frames[1].value.warned);
    LateReplyExactIff(m.c.messages, r, w.order);
  }

  /** Two streams pause, both waits run out: a history that answers a call twice is sent. */
  lemma TwoStreamsDouble(w: World, cfg: Config, a: ToolCall, b: ToolCall, n: nat, x: string, y: string)
    returns (actions: seq<Action>, h: seq<Message>)
    requires Enumerates(w.order) && Overlaps(w, cfg, a, b) && n >= 2
    ensures SentIn(MixedRun(w, cfg, n, actions).c.trace, h) && !WellPaired(h)
  {
    var m;
    actions, m := BothWait(w, cfg, a, b, n, x, y);
    FirstTimesOut(w, cfg, m, a, b);
    actions, m := OneMore(w, cfg, n, actions, TimeUp(0));
    h := SecondTimesOut(w, cfg, m, b);
    actions, m := OneMore(w, cfg, n, actions, TimeUp(1));
  }

  lemma FirstWaits(w: World, cfg: Config, a: ToolCall, b: ToolCall, n: nat, x: string)
    returns (actions: seq<Action>, m: Mixed)
    requires Overlaps(w, cfg, a, b) && n >= 2
    ensures m == MixedRun(w, cfg, n, actions) && m.c.models == 1 && m.c.tools == 1
    ensures WaitsAt(m, 0, a) && |m.frames| == n && m.frames[1].None?
  {
    var none := Init(n);
    assert none.frames[0].None? && none.frames[1].None? && none.c == START;
    StreamPauses(w, cfg, none, 0, x, a);
    actions, m := OneMore(w, cfg, n, [], StreamMessage(0, x));
  }

  lemma BothWait(w: World, cfg: Config, a: ToolCall, b: ToolCall, n: nat, x: string, y: string)
    returns (actions: seq<Action>, m: Mixed)
    requires Overlaps(w, cfg, a, b) && n >= 2
    ensures m == MixedRun(w, cfg, n, actions) && m.c.models == 2
    ensures WaitsAt(m, 0, a) && WaitsAt(m, 1, b) && Open(m.c.messages) == Block(AnswerTurn(w.model(1)), [])
  {
    actions, m := FirstWaits(w, cfg, a, b, n, x);
    StreamPauses(w, cfg, m, 1, y, b);
    actions, m := OneMore(w, cfg, n, actions, StreamMessage(1, y));
  }

  lemma OneMore(w: World, cfg: Config, n: nat, actions: seq<Action>, a: Action) returns (longer: seq<Action>, m: Mixed)
    ensures longer == actions + [a] && m == MixedRun(w, cfg, n, longer) == Step(w, cfg, MixedRun(w, cfg, n, actions), a)
  {
    longer := actions + [a];
    m := MixedRun(w, cfg, n, longer);
    assert longer[..|actions|] == actions;
  }

  /** Main result. In a world where two streams can overlap like this, and with fresh call ids, every history sent in
      every mixed run has exactly one reply for each call if and only if at most one stream serves the session. */
  lemma EverySentWellPairedIff(w: World, cfg: Config, a: ToolCall, b: ToolCall, n: nat)
    requires Enumerates(w.order) && FreshCalls(w) && Overlaps(w, cfg, a, b)
    ensures (forall actions :: SentPaired(MixedRun(w, cfg, n, actions).c.trace)) <==> n <= 1
  {
    if n <= 1 {
      forall actions { EverySentWellPairedMixed(w, cfg, n, actions); }
    } else {
      var actions, h := TwoStreamsDouble(w, cfg, a, b, n, "", "");
      assert !SentPaired(MixedRun(w, cfg, n, actions).c.trace);
    }
  }
}
