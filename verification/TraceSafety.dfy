/** What the trace of a run says about confirmations, commands, rounds and warnings. */
module TraceSafety {
  import opened Prelude
  import opened History
  import opened Conversation
  import opened PairingSafety

  function Max0(n: int): nat { if n < 0 then 0 else n }

  /** Model rounds: a retry after a 400 belongs to its round. */
  function Rounds(trace: seq<Event>): nat {
    if trace == [] then 0 else
    var n := |trace| - 1;
    Rounds(trace[..n]) + if trace[n].Sent? && !trace[n].retry then 1 else 0
  }

  function ToolResumes(trace: seq<Event>): nat {
    if trace == [] then 0 else
    var n := |trace| - 1;
    ToolResumes(trace[..n]) + if trace[n].Resumed? && trace[n].pause.ToolPause? then 1 else 0
  }

  function Honoured(trace: seq<Event>): seq<string> {
    if trace == [] then [] else
    var n := |trace| - 1;
    Honoured(trace[..n]) + if trace[n].Resumed? then [trace[n].pause.cid] else []
  }

  /** The step up to which the user last agreed to go on. */
  function LastAck(trace: seq<Event>): int {
    if trace == [] then 0 else
    var n := |trace| - 1;
    if trace[n].Resumed? && trace[n].pause.StepPause? && trace[n].action == "approve" then trace[n].pause.step
    else LastAck(trace[..n])
  }

  predicate AllSent(delta: seq<Event>) { forall i :: 0 <= i < |delta| ==> delta[i].Sent? }

  lemma {:induction false} SentOnly(trace: seq<Event>, delta: seq<Event>)
    requires AllSent(delta)
    ensures ToolResumes(trace + delta) == ToolResumes(trace)
    ensures Honoured(trace + delta) == Honoured(trace)
    ensures LastAck(trace + delta) == LastAck(trace)
    ensures Rounds(trace + delta) == Rounds(trace) + Rounds(delta)
  {
    if delta == [] {
      assert trace + delta == trace;
    } else {
      var n := |delta| - 1;
      SentOnly(trace, delta[..n]);
      assert (trace + delta)[..|trace| + n] == trace + delta[..n];
    }
  }

  lemma TraceSnoc(trace: seq<Event>, e: Event)
    ensures Rounds(trace + [e]) == Rounds(trace) + if e.Sent? && !e.retry then 1 else 0
    ensures ToolResumes(trace + [e]) == ToolResumes(trace) + if e.Resumed? && e.pause.ToolPause? then 1 else 0
    ensures Honoured(trace + [e]) == Honoured(trace) + if e.Resumed? then [e.pause.cid] else []
    ensures LastAck(trace + [e]) ==
            if e.Resumed? && e.pause.StepPause? && e.action == "approve" then e.pause.step else LastAck(trace)
  {
    assert (trace + [e])[..|trace|] == trace;
  }

  // ---- the loop ----

  predicate LoopEvents(cfg: Config, acked: int, step: nat, delta: seq<Event>) {
    forall i :: 0 <= i < |delta| ==>
      && delta[i].Sent? && step <= delta[i].step < cfg.maxSteps
      && (cfg.stepWarning > 0 ==> delta[i].step < acked + cfg.stepWarning)
  }

  /** How a loop may leave the session: waiting on a new pause, with the rounds it took to get there,
      or with the old pending record. */
  predicate LoopEnds(w: World, cfg: Config, c: Conv, step: nat, d: Conv, out: Outcome, rounds: nat) {
    && d.acked == c.acked
    && rounds <= Max0(cfg.maxSteps - step)
    && if out.Awaiting? then
         && d.uuids == c.uuids + 1 && d.pending.Some?
         && d.pending.value.cid == w.uuid(c.uuids)
         && step <= d.pending.value.step < cfg.maxSteps
         && rounds <= d.pending.value.step - step + if d.pending.value.ToolPause? then 1 else 0
       else d.pending == c.pending && d.uuids == c.uuids
  }

  lemma EndsHere(w: World, cfg: Config, c: Conv, d: Conv, flow: Flow, turn: Option<Turn>, rs: seq<Reply>, step: nat)
    requires Paused(w, c, d, flow, turn, rs, step) && flow.Stop? && d.acked == c.acked && step < cfg.maxSteps
    ensures LoopEnds(w, cfg, c, step, d, flow.outcome, 1)
  {
  }

  lemma EndsLater(w: World, cfg: Config, c: Conv, c1: Conv, step: nat, d: Conv, out: Outcome, rounds: nat)
    requires c1.pending == c.pending && c1.uuids == c.uuids && c1.acked == c.acked && step < cfg.maxSteps
    requires LoopEnds(w, cfg, c1, step + 1, d, out, rounds)
    ensures LoopEnds(w, cfg, c, step, d, out, rounds + 1)
  {
  }

  lemma EventsLater(cfg: Config, acked: int, step: nat, delta: seq<Event>, rest: seq<Event>)
    requires LoopEvents(cfg, acked, step, delta) && LoopEvents(cfg, acked, step + 1, rest)
    ensures LoopEvents(cfg, acked, step, delta + rest)
  {
  }

  lemma RoundTrace(w: World, cfg: Config, c: Conv, step: nat) returns (delta: seq<Event>)
    requires Enumerates(w.order) && step < cfg.maxSteps
    requires cfg.stepWarning > 0 ==> step - c.acked < cfg.stepWarning
    ensures var (d, flow) := Round(w, c, step);
      && d.trace == c.trace + delta && LoopEvents(cfg, c.acked, step, delta) && Rounds(delta) == 1
      && d.acked == c.acked
      && (flow.Continue? ==> d.pending == c.pending && d.uuids == c.uuids)
      && (flow.Stop? ==> LoopEnds(w, cfg, c, step, d, flow.outcome, 1))
  {
    var k, rs := RoundShape(w, c, step);
    var (d, flow) := Round(w, c, step);
    delta := AskDelta(c.trace, d.trace, step, Repaired(c.messages, w.order));
    if flow.Stop? {
      EndsHere(w, cfg, c, d, flow, AnswerTurn(w.model(k)), rs, step);
    }
  }

  lemma {:induction false} LoopTrace(w: World, cfg: Config, c: Conv, step: nat) returns (delta: seq<Event>)
    requires Enumerates(w.order)
    ensures Loop(w, cfg, c, step).0.trace == c.trace + delta
    ensures LoopEvents(cfg, c.acked, step, delta)
    ensures LoopEnds(w, cfg, c, step, Loop(w, cfg, c, step).0, Loop(w, cfg, c, step).1, Rounds(delta))
    decreases cfg.maxSteps - step
  {
    delta := [];
    assert c.trace + [] == c.trace;
    if step < cfg.maxSteps && !(cfg.stepWarning > 0 && step - c.acked >= cfg.stepWarning) {
      delta := RoundTrace(w, cfg, c, step);
      var c1 := Round(w, c, step).0;
      if Round(w, c, step).1.Continue? {
        var rest := LoopTrace(w, cfg, c1, step + 1);
        var (d, out) := Loop(w, cfg, c1, step + 1);
        SentOnly(delta, rest);
        EndsLater(w, cfg, c, c1, step, d, out, Rounds(rest));
        EventsLater(cfg, c.acked, step, delta, rest);
        Reassociate(c.trace, delta, rest);
        delta := delta + rest;
      }
    }
  }

  lemma AskDelta(before: seq<Event>, after: seq<Event>, step: nat, h: seq<Message>) returns (delta: seq<Event>)
    requires AskTrace(before, after, step, h)
    ensures after == before + delta && Rounds(delta) == 1 && |delta| > 0
    ensures forall i :: 0 <= i < |delta| ==> delta[i].Sent? && delta[i].step == step && delta[i].history == h
  {
    delta := after[|before|..];
    var first := [Sent(step, false, h)];
    assert Rounds(first) == 1;
    TraceSnoc(first, Sent(step, true, h));
    assert delta == first || delta == first + [Sent(step, true, h)];
  }

  // ---- one request ----

  /** What a matching confirmation puts on the trace before any model round. */
  function ResumeHead(p: Pending, action: string): seq<Event> {
    [Resumed(p, action)] +
    if p.ToolPause? && action == "approve" && Runs(p) then [Executed(p.cid, p.command)] else []
  }

  /** An approved record reaches the tool layer, except a plain empty command. */
  predicate Runs(p: Pending)
    requires p.ToolPause?
  {
    p.tool == "phone_act" || p.tool == "delegate_to_claude" || p.command != ""
  }

  predicate Matches(c: Conv, req: Request) {
    req.Confirm? && c.pending.Some? && c.pending.value.cid == req.id
  }

  function RequestHead(c: Conv, req: Request): seq<Event> {
    if Matches(c, req) then ResumeHead(c.pending.value, req.action) else []
  }

  /** The acknowledged step a request's rounds are counted from. */
  function AckFor(c: Conv, req: Request): int {
    if Matches(c, req) && c.pending.value.StepPause? && req.action == "approve" then c.pending.value.step else c.acked
  }

  /** The step a request's first round would have. */
  function FirstStep(c: Conv, req: Request): nat {
    if Matches(c, req) then c.pending.value.step else 0
  }

  /** The state in which a request enters the loop, or None when it does not. */
  function Entry(w: World, cfg: Config, c: Conv, req: Request): Option<Conv> {
    match req
    case Say(text) => Some(Summarised(w, cfg, c.(messages := c.messages + [Spoken(User(text))])))
    case Confirm(_, action) =>
      if !Matches(c, req) then None else
      var p := c.pending.value;
      var c1 := c.(pending := None, trace := c.trace + [Resumed(p, action)]);
      if p.StepPause? then (if action == "approve" then Some(c1.(acked := p.step)) else None) else
      var (c2, output) := if action == "approve" then Execute(w, c1, p) else (c1, Some(Denied(p.command)));
      if output.None? then None
      else Some(c2.(messages := c2.messages + [Tool(Reply(p.call.id, output.value))]))
  }

  lemma EntryTurn(w: World, cfg: Config, c: Conv, req: Request)
    ensures Entry(w, cfg, c, req).Some? ==>
      var e := Entry(w, cfg, c, req).value;
      && RunTurn(w, cfg, c, req) == Loop(w, cfg, e, FirstStep(c, req))
      && e.trace == c.trace + RequestHead(c, req) && e.acked == AckFor(c, req) && e.uuids == c.uuids
      && e.pending == if req.Say? then c.pending else None
    ensures Entry(w, cfg, c, req).None? ==>
      var (d, out) := RunTurn(w, cfg, c, req);
      && d.trace == c.trace + RequestHead(c, req) && d.acked == c.acked && d.pending.None? && d.uuids == c.uuids
      && AckFor(c, req) == c.acked
  {
    if Matches(c, req) {
      ResumeEntry(w, cfg, c, req);
    } else {
      assert c.trace + [] == c.trace;
    }
  }

  lemma ResumeEntry(w: World, cfg: Config, c: Conv, req: Request)
    requires Matches(c, req)
    ensures var p, entry := c.pending.value, Entry(w, cfg, c, req);
      var (d, out) := RunTurn(w, cfg, c, req);
      && (entry.Some? ==>
            && (d, out) == Loop(w, cfg, entry.value, p.step) && entry.value.pending.None?
            && entry.value.trace == c.trace + ResumeHead(p, req.action) && entry.value.uuids == c.uuids
            && entry.value.acked == AckFor(c, req))
      && (entry.None? ==>
            && d.pending.None? && d.trace == c.trace + ResumeHead(p, req.action) && d.uuids == c.uuids
            && d.acked == c.acked == AckFor(c, req))
  {
    var p := c.pending.value;
    HeadOn(c.trace, p, req.action);
  }

  lemma HeadOn(trace: seq<Event>, p: Pending, action: string)
    ensures trace + ResumeHead(p, action) ==
            if p.ToolPause? && action == "approve" && Runs(p)
            then trace + [Resumed(p, action)] + [Executed(p.cid, p.command)]
            else trace + [Resumed(p, action)]
  {
  }

  /** A request adds its head to the trace, then only histories sent to the model. */
  lemma TurnTrace(w: World, cfg: Config, c: Conv, req: Request) returns (delta: seq<Event>)
    requires Enumerates(w.order)
    ensures var (d, out) := RunTurn(w, cfg, c, req);
      && d.trace == c.trace + RequestHead(c, req) + delta
      && LoopEvents(cfg, AckFor(c, req), FirstStep(c, req), delta)
      && d.acked == AckFor(c, req)
      && Rounds(delta) <= Max0(cfg.maxSteps - FirstStep(c, req))
      && (if Entry(w, cfg, c, req).Some?
             && Loop(w, cfg, Entry(w, cfg, c, req).value, FirstStep(c, req)).1.Awaiting? then
            && d.uuids == c.uuids + 1 && d.pending.Some? && d.pending.value.cid == w.uuid(c.uuids)
            && FirstStep(c, req) <= d.pending.value.step < cfg.maxSteps
            && Rounds(delta) <= d.pending.value.step - FirstStep(c, req) + if d.pending.value.ToolPause? then 1 else 0
          else d.pending == (if req.Say? then c.pending else None) && d.uuids == c.uuids)
  {
    EntryTurn(w, cfg, c, req);
    delta := [];
    if Entry(w, cfg, c, req).Some? {
      delta := LoopTrace(w, cfg, Entry(w, cfg, c, req).value, FirstStep(c, req));
    } else {
      assert c.trace + RequestHead(c, req) + [] == c.trace + RequestHead(c, req);
    }
  }

  // ---- commands and confirmations ----

  /** A request runs a paused command exactly when it is the matching approval, and then once. */
  lemma CommandsNeedApproval(w: World, cfg: Config, c: Conv, req: Request)
    requires Enumerates(w.order)
    ensures var t := RunTurn(w, cfg, c, req).0.trace;
      var approved := Matches(c, req) && req.action == "approve" && c.pending.value.ToolPause? && Runs(c.pending.value);
      && c.trace <= t
      && (forall i :: |c.trace| <= i < |t| && t[i].Executed? ==>
            approved && i == |c.trace| + 1 && t[i] == Executed(req.id, c.pending.value.command))
      && (approved ==> |c.trace| + 1 < |t| && t[|c.trace| + 1] == Executed(req.id, c.pending.value.command))
  {
    var delta := TurnTrace(w, cfg, c, req);
    Parts(c.trace, RequestHead(c, req), delta);
  }

  lemma Parts(base: seq<Event>, head: seq<Event>, delta: seq<Event>)
    ensures var t := base + head + delta;
      && base <= t
      && (forall i :: 0 <= i < |head| ==> t[|base| + i] == head[i])
      && (forall i :: |base| <= i < |t| ==>
            t[i] == if i < |base| + |head| then head[i - |base|] else delta[i - |base| - |head|])
  {
  }

  ghost predicate DistinctUuids(w: World) {
    forall i: nat, j: nat :: i < j ==> w.uuid(i) != w.uuid(j)
  }

  ghost predicate Issued(w: World, k: nat, cid: string) {
    exists j: nat :: j < k && w.uuid(j) == cid
  }

  ghost predicate ConfirmationInv(w: World, c: Conv) {
    && NoRepeats(Honoured(c.trace))
    && (forall cid :: cid in Honoured(c.trace) ==> Issued(w, c.uuids, cid))
    && (c.pending.Some? ==> Issued(w, c.uuids, c.pending.value.cid) && c.pending.value.cid !in Honoured(c.trace))
  }

  lemma HeadHonoured(c: Conv, req: Request)
    ensures Honoured(c.trace + RequestHead(c, req)) == Honoured(c.trace) + if Matches(c, req) then [req.id] else []
  {
    if Matches(c, req) {
      var p := c.pending.value;
      TraceSnoc(c.trace, Resumed(p, req.action));
      TraceSnoc(c.trace + [Resumed(p, req.action)], Executed(p.cid, if p.ToolPause? then p.command else ""));
      Reassociate(c.trace, [Resumed(p, req.action)], [Executed(p.cid, if p.ToolPause? then p.command else "")]);
      assert [Resumed(p, req.action)] + [] == [Resumed(p, req.action)];
    } else {
      assert c.trace + [] == c.trace;
    }
  }

  lemma ConfirmationKeeps(w: World, cfg: Config, c: Conv, req: Request)
    requires Enumerates(w.order) && DistinctUuids(w) && ConfirmationInv(w, c)
    ensures ConfirmationInv(w, RunTurn(w, cfg, c, req).0)
  {
    var d := RunTurn(w, cfg, c, req).0;
    var delta := TurnTrace(w, cfg, c, req);
    HeadHonoured(c, req);
    SentOnly(c.trace + RequestHead(c, req), delta);
    forall cid | Issued(w, c.uuids, cid)
      ensures Issued(w, d.uuids, cid) && cid != w.uuid(c.uuids)
    {
    }
    if d.pending.Some? && d.uuids == c.uuids + 1 {
      assert Issued(w, d.uuids, w.uuid(c.uuids));
    }
  }

  /** Over a whole run no confirmation id is honoured twice. */
  lemma {:induction false} HonouredOnce(w: World, cfg: Config, reqs: seq<Request>)
    requires Enumerates(w.order) && DistinctUuids(w)
    ensures NoRepeats(Honoured(Run(w, cfg, START, reqs).trace))
    ensures ConfirmationInv(w, Run(w, cfg, START, reqs))
  {
    if reqs != [] {
      HonouredOnce(w, cfg, reqs[..|reqs| - 1]);
      ConfirmationKeeps(w, cfg, Run(w, cfg, START, reqs[..|reqs| - 1]), reqs[|reqs| - 1]);
    }
  }

  // ---- how many rounds ----

  /** One chain: a message, then only confirmations. `rounds` and `resumes` are counted from the message on. */
  predicate ChainInv(cfg: Config, c: Conv, rounds: int, resumes: int) {
    && rounds <= Max0(cfg.maxSteps) + resumes
    && (c.pending.Some? ==>
          && c.pending.value.step < cfg.maxSteps
          && rounds <= c.pending.value.step + resumes + if c.pending.value.ToolPause? then 1 else 0)
  }

  /** Model rounds and resumed tool calls between an earlier and a later state of a run. */
  function NewRounds(before: Conv, after: Conv): int { Rounds(after.trace) - Rounds(before.trace) }
  function NewResumes(before: Conv, after: Conv): int { ToolResumes(after.trace) - ToolResumes(before.trace) }

  lemma HeadCounts(c: Conv, req: Request)
    ensures Rounds(c.trace + RequestHead(c, req)) == Rounds(c.trace)
    ensures ToolResumes(c.trace + RequestHead(c, req)) == ToolResumes(c.trace) +
                                                          if Matches(c, req) && c.pending.value.ToolPause? then 1 else 0
    ensures LastAck(c.trace + RequestHead(c, req)) == AckFor(c.(acked := LastAck(c.trace)), req)
  {
    if Matches(c, req) {
      var p := c.pending.value;
      TraceSnoc(c.trace, Resumed(p, req.action));
      TraceSnoc(c.trace + [Resumed(p, req.action)], Executed(p.cid, if p.ToolPause? then p.command else ""));
      Reassociate(c.trace, [Resumed(p, req.action)], [Executed(p.cid, if p.ToolPause? then p.command else "")]);
      assert [Resumed(p, req.action)] + [] == [Resumed(p, req.action)];
    } else {
      assert c.trace + [] == c.trace;
    }
  }

  lemma ChainKeeps(w: World, cfg: Config, c: Conv, req: Request, rounds: int, resumes: int)
    requires Enumerates(w.order) && ChainInv(cfg, c, rounds, resumes)
    requires req.Confirm? || (rounds == resumes == 0 && c.pending.None?)
    ensures var d := RunTurn(w, cfg, c, req).0;
      ChainInv(cfg, d, rounds + NewRounds(c, d), resumes + NewResumes(c, d))
  {
    var delta := TurnTrace(w, cfg, c, req);
    HeadCounts(c, req);
    SentOnly(c.trace + RequestHead(c, req), delta);
    assert !Matches(c, req) && req.Confirm? ==> Entry(w, cfg, c, req).None?;
  }

  lemma {:induction false} ConfirmsKeep(
    w: World, cfg: Config, c: Conv, confirms: seq<Request>, rounds: int, resumes: int)
    requires Enumerates(w.order) && ChainInv(cfg, c, rounds, resumes)
    requires forall r :: r in confirms ==> r.Confirm?
    ensures var d := Run(w, cfg, c, confirms);
      ChainInv(cfg, d, rounds + NewRounds(c, d), resumes + NewResumes(c, d))
    decreases |confirms|
  {
    if confirms != [] {
      var n := |confirms| - 1;
      ConfirmsKeep(w, cfg, c, confirms[..n], rounds, resumes);
      var d := Run(w, cfg, c, confirms[..n]);
      ChainKeeps(w, cfg, d, confirms[n], rounds + NewRounds(c, d), resumes + NewResumes(c, d));
    }
  }

  /** A message and the confirmations after it take at most `maxSteps` model rounds, plus one for each
      tool call resumed, since the round it paused in is counted again. */
  lemma ChainRounds(w: World, cfg: Config, c: Conv, text: string, confirms: seq<Request>)
    requires Enumerates(w.order) && c.pending.None?
    requires forall r :: r in confirms ==> r.Confirm?
    ensures var d := Run(w, cfg, RunTurn(w, cfg, c, Say(text)).0, confirms);
      NewRounds(c, d) <= Max0(cfg.maxSteps) + NewResumes(c, d)
  {
    var c1 := RunTurn(w, cfg, c, Say(text)).0;
    ChainKeeps(w, cfg, c, Say(text), 0, 0);
    ConfirmsKeep(w, cfg, c1, confirms, NewRounds(c, c1), NewResumes(c, c1));
  }

  /** A pause always lies below the step limit. */
  lemma {:induction false} PauseBelowLimit(w: World, cfg: Config, reqs: seq<Request>)
    requires Enumerates(w.order)
    ensures var p := Run(w, cfg, START, reqs).pending; p.Some? ==> p.value.step < cfg.maxSteps
    decreases |reqs|
  {
    if reqs != [] {
      var n := |reqs| - 1;
      PauseBelowLimit(w, cfg, reqs[..n]);
      var delta := TurnTrace(w, cfg, Run(w, cfg, START, reqs[..n]), reqs[n]);
    }
  }

  /** A message that overtakes a pause leaves it to be resumed by a later confirmation: the message's own rounds
      come on top, so the bound doubles, and holds from any reachable state. */
  lemma OvertakenRounds(w: World, cfg: Config, reqs: seq<Request>, text: string, confirms: seq<Request>)
    requires Enumerates(w.order)
    requires forall r :: r in confirms ==> r.Confirm?
    ensures var c := Run(w, cfg, START, reqs);
      var d := Run(w, cfg, RunTurn(w, cfg, c, Say(text)).0, confirms);
      NewRounds(c, d) <= 2 * Max0(cfg.maxSteps) + NewResumes(c, d)
  {
    var c := Run(w, cfg, START, reqs);
    var c1 := RunTurn(w, cfg, c, Say(text)).0;
    PauseBelowLimit(w, cfg, reqs);
    var own := SayRounds(w, cfg, c, text);
    ConfirmsKeep(w, cfg, c1, confirms, NewRounds(c, c1) - own, 0);
  }

  /** `own` of a message's rounds need no further pause to account for them. */
  lemma SayRounds(w: World, cfg: Config, c: Conv, text: string) returns (own: nat)
    requires Enumerates(w.order) && (c.pending.Some? ==> c.pending.value.step < cfg.maxSteps)
    ensures var d := RunTurn(w, cfg, c, Say(text)).0;
      && own <= Max0(cfg.maxSteps) && ToolResumes(d.trace) == ToolResumes(c.trace)
      && ChainInv(cfg, d, NewRounds(c, d) - own, 0)
  {
    var req := Say(text);
    var delta := TurnTrace(w, cfg, c, req);
    HeadCounts(c, req);
    SentOnly(c.trace + RequestHead(c, req), delta);
    own := Rounds(delta);
  }

  // ---- the step warning ----

  /** No round at or past the last acknowledged step plus the warning threshold, nor past the step limit. */
  predicate Warned(cfg: Config, trace: seq<Event>) {
    forall i :: 0 <= i < |trace| && trace[i].Sent? ==>
      && trace[i].step < cfg.maxSteps
      && (cfg.stepWarning > 0 ==> trace[i].step < LastAck(trace[..i]) + cfg.stepWarning)
  }

  lemma {:induction false} WarnedExtend(cfg: Config, trace: seq<Event>, delta: seq<Event>, step: nat)
    requires Warned(cfg, trace) && LoopEvents(cfg, LastAck(trace), step, delta)
    ensures Warned(cfg, trace + delta)
  {
    forall i | 0 <= i < |trace + delta| && (trace + delta)[i].Sent?
      ensures (trace + delta)[i].step < cfg.maxSteps
      ensures cfg.stepWarning > 0 ==> (trace + delta)[i].step < LastAck((trace + delta)[..i]) + cfg.stepWarning
    {
      if i < |trace| {
        assert (trace + delta)[..i] == trace[..i];
      } else {
        assert (trace + delta)[..i] == trace + delta[..i - |trace|];
        SentOnly(trace, delta[..i - |trace|]);
      }
    }
  }

  lemma WarnedHead(cfg: Config, c: Conv, req: Request)
    requires Warned(cfg, c.trace) && c.acked == LastAck(c.trace)
    ensures Warned(cfg, c.trace + RequestHead(c, req))
    ensures LastAck(c.trace + RequestHead(c, req)) == AckFor(c, req)
  {
    HeadCounts(c, req);
    var head := RequestHead(c, req);
    assert forall i :: 0 <= i < |head| ==> !head[i].Sent?;
    WarnedBesides(cfg, c.trace, head);
  }

  lemma WarnedBesides(cfg: Config, trace: seq<Event>, head: seq<Event>)
    requires Warned(cfg, trace) && forall i :: 0 <= i < |head| ==> !head[i].Sent?
    ensures Warned(cfg, trace + head)
  {
    forall i | 0 <= i < |trace|
      ensures (trace + head)[..i] == trace[..i]
    {
    }
  }

  lemma {:induction false} WarningHeeded(w: World, cfg: Config, reqs: seq<Request>)
    requires Enumerates(w.order)
    ensures var d := Run(w, cfg, START, reqs);
      Warned(cfg, d.trace) && d.acked == LastAck(d.trace)
  {
    if reqs != [] {
      var n := |reqs| - 1;
      WarningHeeded(w, cfg, reqs[..n]);
      var c := Run(w, cfg, START, reqs[..n]);
      var delta := TurnTrace(w, cfg, c, reqs[n]);
      WarnedHead(cfg, c, reqs[n]);
      WarnedExtend(cfg, c.trace + RequestHead(c, reqs[n]), delta, FirstStep(c, reqs[n]));
      SentOnly(c.trace + RequestHead(c, reqs[n]), delta);
    }
  }

  // ---- within one loop ----

  /** Which answer of the model a round takes: the retry's after a 400. */
  function AnswerIndex(w: World, c: Conv): nat {
    if w.model(c.models).BadRequest? then c.models + 1 else c.models
  }

  function AnswerCalls(w: World, c: Conv): seq<ToolCall> {
    var r := w.model(AnswerIndex(w, c));
    if r.Answer? then r.calls else []
  }

  /** A round that goes on has had an answer with calls, and replied to each. */
  lemma RoundOn(w: World, c: Conv, step: nat) returns (rs: seq<Reply>)
    requires Enumerates(w.order) && Round(w, c, step).1.Continue?
    ensures var r := w.model(AnswerIndex(w, c));
      && r.Answer? && ReplyEach(rs, r.calls) && |rs| == |r.calls|
      && Round(w, c, step).0.messages == After(Repaired(c.messages, w.order), AnswerTurn(r), rs)
  {
    RetryResends(c.messages, w.order);
    var (c1, turn) := Ask(w, c, step);
    var c2 := c1.(messages := c1.messages + [Spoken(turn.value)]);
    rs := CallsShape(w, c2, turn.value.calls, step);
  }

  /** After a round that goes on the next repair has nothing to do exactly when every call of its answer has an id;
      so with such ids repair can act only in a loop's first round. The reply to a call without one is dropped. */
  lemma RepairOnlyFirst(w: World, c: Conv, step: nat)
    requires Enumerates(w.order) && Round(w, c, step).1.Continue?
    ensures var ms := Round(w, c, step).0.messages;
      && Repaired(c.messages, w.order) <= ms
      && (Repaired(ms, w.order) == ms <==> Named(AnswerCalls(w, c)))
      && (forall r :: r in Open(Repaired(ms, w.order)).replies ==> r.callId != "")
  {
    var ms := Round(w, c, step).0.messages;
    var rs := RoundOn(w, c, step);
    var r := w.model(AnswerIndex(w, c));
    RepairPairs(c.messages, w.order);
    AllAnsweredIff(r.calls, rs);
    AnsweredPaired(Repaired(c.messages, w.order), AnswerTurn(r).value, rs);
    RepairFixpoint(ms, w.order);
    OpenNamed(ms, w.order);
  }

  lemma OpenNamed(ms: seq<Message>, order: Order)
    requires Enumerates(order)
    ensures forall r :: r in Open(Repaired(ms, order)).replies ==> r.callId != ""
  {
    RepairPairs(ms, order);
    var b := Open(Repaired(ms, order));
    assert b.Balanced();
    forall r | r in b.replies
      ensures r.callId != ""
    {
      assert r.callId in b.Offered();
    }
  }

  lemma AnsweredPaired(h: seq<Message>, turn: Turn, rs: seq<Reply>)
    requires Paired(h)
    ensures Paired(After(h, Some(turn), rs)) <==> ReplyIds(rs) == TurnIds(turn)
    ensures h <= After(h, Some(turn), rs)
  {
    AfterBlocks(h, turn, rs);
    var bs, cs := Blocks(h), Blocks(After(h, Some(turn), rs));
    assert cs[|bs|] == Block(Some(turn), rs);
    forall i | 0 <= i < |bs|
      ensures cs[i].Balanced()
    {
      assert cs[i] == bs[i] && bs[i].Balanced();
    }
  }

  lemma AllAnsweredIff(calls: seq<ToolCall>, rs: seq<Reply>)
    requires ReplyEach(rs, calls) && |rs| == |calls|
    ensures ReplyIds(rs) == CallIds(calls) <==> Named(calls)
  {
    if Named(calls) {
      AllAnswered(calls, rs);
    } else {
      var x :| 0 <= x < |calls| && calls[x].id == "";
      assert rs[x] in rs && rs[x].callId in ReplyIds(rs);
    }
  }

  lemma AllAnswered(calls: seq<ToolCall>, rs: seq<Reply>)
    requires ReplyEach(rs, calls) && |rs| == |calls| && Named(calls)
    ensures ReplyIds(rs) == CallIds(calls)
  {
    forall r | r in rs
      ensures r.callId in CallIds(calls)
    {
      var i :| 0 <= i < |rs| && rs[i] == r;
      assert calls[i] in calls;
    }
    forall t | t in calls
      ensures t.id in ReplyIds(rs)
    {
      var i :| 0 <= i < |calls| && calls[i] == t;
      assert rs[i] in rs;
    }
  }

  /** Within one loop each history sent extends the one sent before. */
  predicate Growing(base: seq<Message>, trace: seq<Event>, from: nat) {
    forall i :: from <= i < |trace| ==>
      && trace[i].Sent? && base <= trace[i].history
      && (i > from && trace[i - 1].Sent? ==> trace[i - 1].history <= trace[i].history)
  }

  lemma {:induction false} LoopGrows(w: World, cfg: Config, c: Conv, step: nat)
    requires Enumerates(w.order) && NamedCalls(w)
    ensures c.trace <= Loop(w, cfg, c, step).0.trace
    ensures Growing(Repaired(c.messages, w.order), Loop(w, cfg, c, step).0.trace, |c.trace|)
    decreases cfg.maxSteps - step
  {
    if step < cfg.maxSteps && !(cfg.stepWarning > 0 && step - c.acked >= cfg.stepWarning) {
      var h := Repaired(c.messages, w.order);
      var delta := RoundSends(w, c, step);
      if Round(w, c, step).1.Continue? {
        var c1 := Round(w, c, step).0;
        RepairOnlyFirst(w, c, step);
        LoopGrows(w, cfg, c1, step + 1);
        GrowingOn(h, c1.messages, Loop(w, cfg, c1, step + 1).0.trace, |c.trace|, |c1.trace|);
      }
    }
  }

  lemma RoundSends(w: World, c: Conv, step: nat) returns (delta: seq<Event>)
    requires Enumerates(w.order)
    ensures Round(w, c, step).0.trace == c.trace + delta && |delta| > 0
    ensures forall i :: 0 <= i < |delta| ==>
      delta[i].Sent? && delta[i].step == step && delta[i].history == Repaired(c.messages, w.order)
  {
    var k, rs := RoundShape(w, c, step);
    delta := AskDelta(c.trace, Round(w, c, step).0.trace, step, Repaired(c.messages, w.order));
  }

  lemma GrowingOn(h: seq<Message>, h1: seq<Message>, trace: seq<Event>, from: nat, mid: nat)
    requires from < mid <= |trace| && h <= h1
    requires forall i :: from <= i < mid ==> trace[i].Sent? && trace[i].history == h
    requires Growing(h1, trace, mid)
    ensures Growing(h, trace, from)
  {
  }

  // ---- without any assumption on the ids ----

  predicate SentBalanced(trace: seq<Event>) {
    forall i :: 0 <= i < |trace| && trace[i].Sent? ==> Paired(trace[i].history)
  }

  lemma SentBalancedJoin(trace: seq<Event>, delta: seq<Event>)
    requires SentBalanced(trace) && SentBalanced(delta)
    ensures SentBalanced(trace + delta)
  {
  }

  lemma {:induction false} LoopBalanced(w: World, cfg: Config, c: Conv, step: nat)
    requires Enumerates(w.order) && SentBalanced(c.trace)
    ensures SentBalanced(Loop(w, cfg, c, step).0.trace)
    decreases cfg.maxSteps - step
  {
    if step < cfg.maxSteps && !(cfg.stepWarning > 0 && step - c.acked >= cfg.stepWarning) {
      RepairPairs(c.messages, w.order);
      var delta := RoundSends(w, c, step);
      SentBalancedJoin(c.trace, delta);
      if Round(w, c, step).1.Continue? {
        LoopBalanced(w, cfg, Round(w, c, step).0, step + 1);
      }
    }
  }

  /** Over every run, whatever ids the model makes up or repeats: in every history it is given each call is
      answered right after its turn, and every tool message answers a call of the turn before it. */
  lemma {:induction false} EverySentPaired(w: World, cfg: Config, reqs: seq<Request>)
    requires Enumerates(w.order)
    ensures SentBalanced(Run(w, cfg, START, reqs).trace)
  {
    if reqs != [] {
      var n := |reqs| - 1;
      var c := Run(w, cfg, START, reqs[..n]);
      EverySentPaired(w, cfg, reqs[..n]);
      EntryTurn(w, cfg, c, reqs[n]);
      SentBalancedJoin(c.trace, RequestHead(c, reqs[n]));
      if Entry(w, cfg, c, reqs[n]).Some? {
        LoopBalanced(w, cfg, Entry(w, cfg, c, reqs[n]).value, FirstStep(c, reqs[n]));
      }
    }
  }
}
