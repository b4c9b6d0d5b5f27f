/** What runs is what the user was shown and approved, over every run. */
module Approvals {
  import opened Prelude
  import opened Conversation
  import opened History
  import opened PairingSafety
  import opened TraceSafety
  import opened RoundMeaning

  /** A session that waits at a call has just been asked for approval of what is on record. */
  predicate HasAsked(w: World, d: Conv, out: Outcome) {
    out.Awaiting? && d.pending.Some? && d.pending.value.ToolPause? ==>
      d.tools > 0 && d.uuids > 0 && AsksFor(d.pending.value, out, w.tool(d.tools - 1), w.uuid(d.uuids - 1))
  }

  /** The user is shown the id on record, and of a step warning how many steps there were. */
  predicate ShowsRecord(d: Conv, out: Outcome) {
    out.Awaiting? ==>
      && d.pending.Some? && out.cid == d.pending.value.cid
      && (d.pending.value.StepPause? ==> out.shown == Steps(d.pending.value.step))
  }

  lemma {:induction false} LoopShowsRecord(w: World, cfg: Config, c: Conv, step: nat)
    requires Enumerates(w.order)
    ensures ShowsRecord(Loop(w, cfg, c, step).0, Loop(w, cfg, c, step).1)
    decreases cfg.maxSteps - step
  {
    if step < cfg.maxSteps && !(cfg.stepWarning > 0 && step - c.acked >= cfg.stepWarning) {
      RoundJustAsked(w, c, step);
      var k, rs := RoundShape(w, c, step);
      if Round(w, c, step).1.Continue? {
        LoopShowsRecord(w, cfg, Round(w, c, step).0, step + 1);
      }
    }
  }

  /** Whatever the request: when it ends waiting, an answer under the id shown meets the record. */
  lemma TurnShowsRecord(w: World, cfg: Config, c: Conv, req: Request)
    requires Enumerates(w.order)
    ensures ShowsRecord(RunTurn(w, cfg, c, req).0, RunTurn(w, cfg, c, req).1)
  {
    if Entry(w, cfg, c, req).Some? {
      EntryTurn(w, cfg, c, req);
      LoopShowsRecord(w, cfg, Entry(w, cfg, c, req).value, FirstStep(c, req));
    } else {
      NoEntryNoWait(w, cfg, c, req);
    }
  }

  lemma NoEntryNoWait(w: World, cfg: Config, c: Conv, req: Request)
    requires Entry(w, cfg, c, req).None?
    ensures !RunTurn(w, cfg, c, req).1.Awaiting?
  {
  }

  lemma TurnJustAsked(w: World, cfg: Config, c: Conv, req: Request)
    requires Enumerates(w.order)
    ensures HasAsked(w, RunTurn(w, cfg, c, req).0, RunTurn(w, cfg, c, req).1)
  {
    if Entry(w, cfg, c, req).Some? {
      var e := Entry(w, cfg, c, req).value;
      EntryTurn(w, cfg, c, req);
      LoopJustAsked(w, cfg, e, FirstStep(c, req));
      JustIsHas(w, e, Loop(w, cfg, e, FirstStep(c, req)).0, Loop(w, cfg, e, FirstStep(c, req)).1);
    } else {
      NoEntryNoWait(w, cfg, c, req);
    }
  }

  lemma JustIsHas(w: World, c: Conv, d: Conv, out: Outcome)
    requires JustAsked(w, c, d, out)
    ensures HasAsked(w, d, out)
  {
  }

  /** The last request of the run ended by showing the user this record, for which the tool had just asked approval. */
  predicate ShownAfter(w: World, cfg: Config, reqs: seq<Request>, p: Pending) {
    reqs != [] &&
    var k := |reqs| - 1;
    var (d, out) := RunTurn(w, cfg, Run(w, cfg, START, reqs[..k]), reqs[k]);
    Shows(w, d, out, p)
  }

  predicate Shows(w: World, d: Conv, out: Outcome, p: Pending) {
    && d.pending == Some(p) && d.tools > 0 && d.uuids > 0
    && AsksFor(p, out, w.tool(d.tools - 1), w.uuid(d.uuids - 1))
  }

  lemma AskedShows(w: World, d: Conv, out: Outcome)
    requires HasAsked(w, d, out) && out.Awaiting? && CallWaits(d)
    ensures Shows(w, d, out, d.pending.value)
  {
  }

  predicate CallWaits(c: Conv) { c.pending.Some? && c.pending.value.ToolPause? }

  /** What waits has been shown by some request, and not been answered since. */
  lemma {:induction false} WaitingWasShown(w: World, cfg: Config, reqs: seq<Request>) returns (n: nat)
    requires Enumerates(w.order) && CallWaits(Run(w, cfg, START, reqs))
    ensures n <= |reqs| && ShownAfter(w, cfg, reqs[..n], Run(w, cfg, START, reqs).pending.value)
    decreases |reqs|
  {
    n := |reqs|;
    assert reqs[..n] == reqs;
    if reqs != [] {
      var k := |reqs| - 1;
      var c := Run(w, cfg, START, reqs[..k]);
      if RunTurn(w, cfg, c, reqs[k]).1.Awaiting? {
        ShownNow(w, cfg, reqs);
      } else {
        WaitsOn(w, cfg, c, reqs[k]);
        n := WaitingWasShown(w, cfg, reqs[..k]);
        assert reqs[..k][..n] == reqs[..n];
      }
    }
  }

  lemma ShownNow(w: World, cfg: Config, reqs: seq<Request>)
    requires Enumerates(w.order) && reqs != [] && CallWaits(Run(w, cfg, START, reqs))
    requires RunTurn(w, cfg, Run(w, cfg, START, reqs[..|reqs| - 1]), reqs[|reqs| - 1]).1.Awaiting?
    ensures ShownAfter(w, cfg, reqs, Run(w, cfg, START, reqs).pending.value)
  {
    var c, req := Run(w, cfg, START, reqs[..|reqs| - 1]), reqs[|reqs| - 1];
    TurnJustAsked(w, cfg, c, req);
    AskedShows(w, RunTurn(w, cfg, c, req).0, RunTurn(w, cfg, c, req).1);
  }

  /** Unless a request ends waiting, what waits afterwards waited before. */
  lemma WaitsOn(w: World, cfg: Config, c: Conv, req: Request)
    requires Enumerates(w.order) && !RunTurn(w, cfg, c, req).1.Awaiting?
    ensures var d := RunTurn(w, cfg, c, req).0; d.pending.Some? ==> d.pending == c.pending
  {
    var delta := TurnTrace(w, cfg, c, req);
    EntryTurn(w, cfg, c, req);
  }

  /** A command on the trace comes right after the approval of its record, which an earlier request showed. */
  ghost predicate WasApproved(w: World, cfg: Config, reqs: seq<Request>, t: seq<Event>, i: nat)
    requires i < |t|
  {
    && i > 0 && t[i - 1].Resumed? && t[i - 1].action == "approve" && t[i - 1].pause.ToolPause?
    && t[i] == Executed(t[i - 1].pause.cid, t[i - 1].pause.command)
    && ShownBefore(w, cfg, reqs, i, t[i - 1].pause)
  }

  /** A request showed this record, and had ended when the trace was i events long. */
  ghost predicate ShownBefore(w: World, cfg: Config, reqs: seq<Request>, i: nat, p: Pending) {
    exists n :: 0 <= n <= |reqs| && ShownBy(w, cfg, reqs[..n], i, p)
  }

  predicate ShownBy(w: World, cfg: Config, reqs: seq<Request>, i: nat, p: Pending) {
    ShownAfter(w, cfg, reqs, p) && |Run(w, cfg, START, reqs).trace| <= i
  }

  lemma {:induction false} TraceGrows(w: World, cfg: Config, reqs: seq<Request>, n: nat)
    requires Enumerates(w.order) && n <= |reqs|
    ensures |Run(w, cfg, START, reqs[..n]).trace| <= |Run(w, cfg, START, reqs).trace|
    decreases |reqs|
  {
    if n == |reqs| {
      assert reqs[..n] == reqs;
    } else {
      var k := |reqs| - 1;
      assert reqs[..k][..n] == reqs[..n];
      TraceGrows(w, cfg, reqs[..k], n);
      var delta := TurnTrace(w, cfg, Run(w, cfg, START, reqs[..k]), reqs[k]);
    }
  }

  /** What an earlier run has shown, a longer one has. */
  lemma ShownStays(w: World, cfg: Config, reqs: seq<Request>, i: nat, p: Pending)
    requires reqs != [] && ShownBefore(w, cfg, reqs[..|reqs| - 1], i, p)
    ensures ShownBefore(w, cfg, reqs, i, p)
  {
    var front := reqs[..|reqs| - 1];
    var n :| 0 <= n <= |front| && ShownBy(w, cfg, front[..n], i, p);
    assert front[..n] == reqs[..n];
  }

  /** What waits before a request was shown before anything the request does. */
  lemma WaitingShownBefore(w: World, cfg: Config, reqs: seq<Request>, i: nat)
    requires Enumerates(w.order) && |Run(w, cfg, START, reqs).trace| <= i
    requires CallWaits(Run(w, cfg, START, reqs))
    ensures ShownBefore(w, cfg, reqs, i, Run(w, cfg, START, reqs).pending.value)
  {
    var n := WaitingWasShown(w, cfg, reqs);
    TraceGrows(w, cfg, reqs, n);
    assert ShownBy(w, cfg, reqs[..n], i, Run(w, cfg, START, reqs).pending.value);
  }

  /** Main result. Over every run, each command executed is, under its own id, exactly what an earlier request showed
      the user, what the tool had then just asked approval for, and what the user approved right before. */
  lemma {:induction false} RunsWhatWasShown(w: World, cfg: Config, reqs: seq<Request>, i: nat)
    requires Enumerates(w.order)
    requires i < |Run(w, cfg, START, reqs).trace| && Run(w, cfg, START, reqs).trace[i].Executed?
    ensures WasApproved(w, cfg, reqs, Run(w, cfg, START, reqs).trace, i)
    decreases |reqs|
  {
    if reqs != [] {
      var k := |reqs| - 1;
      var c := Run(w, cfg, START, reqs[..k]);
      var t := Run(w, cfg, START, reqs).trace;
      var delta := TurnTrace(w, cfg, c, reqs[k]);
      if i < |c.trace| {
        assert t[i] == c.trace[i] && (i > 0 ==> t[i - 1] == c.trace[i - 1]);
        RunsWhatWasShown(w, cfg, reqs[..k], i);
        ShownStays(w, cfg, reqs, i, t[i - 1].pause);
      } else {
        ApprovedHere(c, reqs[k], delta, i);
        WaitingShownBefore(w, cfg, reqs[..k], i);
        ShownStays(w, cfg, reqs, i, c.pending.value);
      }
    }
  }

  /** A command that a request adds to the trace comes right after its approval. */
  lemma ApprovedHere(c: Conv, req: Request, delta: seq<Event>, i: nat)
    requires AllSent(delta)
    requires var t := c.trace + RequestHead(c, req) + delta; |c.trace| <= i < |t| && t[i].Executed?
    ensures var t := c.trace + RequestHead(c, req) + delta;
      && Matches(c, req) && c.pending.value.ToolPause? && i > 0
      && t[i - 1] == Resumed(c.pending.value, "approve")
      && t[i] == Executed(c.pending.value.cid, c.pending.value.command)
  {
    Parts(c.trace, RequestHead(c, req), delta);
  }
}
