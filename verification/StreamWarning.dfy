/** The step warning of the streaming loop, beside that of the plain loop. Both ask the user for leave to go on;
    only the plain one starts again from the step the user agreed to. */
module StreamWarning {
  import opened History
  import opened Conversation
  import opened TraceSafety

  /** The steps at which a streaming loop runs a model round. `warned` is the acknowledged step it read on entry;
      `approves` is the user's answer to a warning at a step, `goesOn` whether a round ends with more to do. */
  function StreamRounds(cfg: Config, warned: int, approves: nat -> bool, goesOn: nat -> bool, step: nat): seq<nat>
    decreases cfg.maxSteps - step
  {
    if step >= cfg.maxSteps then []
    else if cfg.stepWarning > 0 && step - warned >= cfg.stepWarning then
      if approves(step) then StreamRounds(cfg, warned, approves, goesOn, step + 1) else []
    else [step] + if goesOn(step) then StreamRounds(cfg, warned, approves, goesOn, step + 1) else []
  }

  /** Once a streaming loop has warned it runs no further round: each later step warns again. */
  lemma {:induction false} NoRoundAfterWarning(
    cfg: Config, warned: int, approves: nat -> bool, goesOn: nat -> bool, step: nat)
    requires cfg.stepWarning > 0 && step - warned >= cfg.stepWarning
    ensures StreamRounds(cfg, warned, approves, goesOn, step) == []
    decreases cfg.maxSteps - step
  {
    if step < cfg.maxSteps && approves(step) {
      NoRoundAfterWarning(cfg, warned, approves, goesOn, step + 1);
    }
  }

  /** So in the streaming loop approving a warning comes to the same rounds as refusing it. */
  lemma {:induction false} ApprovalChangesNothing(
    cfg: Config, warned: int, approves: nat -> bool, goesOn: nat -> bool, step: nat)
    ensures StreamRounds(cfg, warned, approves, goesOn, step) == StreamRounds(cfg, warned, s => false, goesOn, step)
    decreases cfg.maxSteps - step
  {
    if step < cfg.maxSteps {
      if cfg.stepWarning > 0 && step - warned >= cfg.stepWarning {
        NoRoundAfterWarning(cfg, warned, approves, goesOn, step);
      } else if goesOn(step) {
        ApprovalChangesNothing(cfg, warned, approves, goesOn, step + 1);
      }
    }
  }

  /** A round runs at exactly the steps below the limit and the warning that every round before goes on to. */
  lemma {:induction false} RoundsAre(
    cfg: Config, warned: int, approves: nat -> bool, goesOn: nat -> bool, step: nat, k: nat)
    ensures k in StreamRounds(cfg, warned, approves, goesOn, step) <==>
            && step <= k < cfg.maxSteps && (cfg.stepWarning > 0 ==> k - warned < cfg.stepWarning)
            && forall j: nat :: step <= j < k ==> goesOn(j)
    decreases cfg.maxSteps - step
  {
    if step < cfg.maxSteps {
      if cfg.stepWarning > 0 && step - warned >= cfg.stepWarning {
        NoRoundAfterWarning(cfg, warned, approves, goesOn, step);
      } else if goesOn(step) {
        RoundsAre(cfg, warned, approves, goesOn, step + 1, k);
      }
    }
  }

  /** In the plain loop an approved warning is followed by a round at that very step. */
  lemma PlainApprovalGoesOn(w: World, cfg: Config, c: Conv, p: Pending)
    requires Enumerates(w.order) && p.StepPause? && p.step < cfg.maxSteps && cfg.stepWarning > 0
    ensures var t := Resume(w, cfg, c, p, "approve").0.trace;
      |c.trace| + 1 < |t| && t[|c.trace| + 1].Sent? && t[|c.trace| + 1].step == p.step
  {
    var c1 := c.(trace := c.trace + [Resumed(p, "approve")], acked := p.step);
    var delta := RoundSends(w, c1, p.step);
    if Round(w, c1, p.step).1.Continue? {
      var rest := LoopTrace(w, cfg, Round(w, c1, p.step).0, p.step + 1);
    }
  }
}
