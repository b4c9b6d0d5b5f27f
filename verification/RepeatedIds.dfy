/** Exactly when a history has one reply for each call, although the model may use a call id twice:
    within one answer, or in a later answer while an old call still waits. */
module RepeatedIds {
  import opened Prelude
  import opened History
  import opened Conversation
  import opened PairingSafety
  import opened TraceSafety

  /** No id is used twice, calls without an id aside. */
  predicate DistinctNamed(calls: seq<ToolCall>) {
    forall x, y :: 0 <= x < y < |calls| && calls[x].id != "" ==> calls[x].id != calls[y].id
  }

  // ---- one block ----

  lemma DistinctSnoc(rs: seq<Reply>, r: Reply)
    ensures Distinct(rs + [r]) <==> Distinct(rs) && r.callId !in ReplyIds(rs)
  {
    var all := rs + [r];
    assert all[|rs|] == r && forall i :: 0 <= i < |rs| ==> all[i] == rs[i];
    if Distinct(all) {
      forall p | p in rs
        ensures p.callId != r.callId
      {
        var i :| 0 <= i < |rs| && rs[i] == p;
        assert all[i].callId != all[|rs|].callId;
      }
    }
  }

  /** One more reply in a block counts if its call is on offer, and doubles it if the call was answered before. */
  lemma GroundedOnce(rs: seq<Reply>, r: Reply, ids: set<string>)
    ensures Distinct(Grounded(rs + [r], ids)) <==>
            Distinct(Grounded(rs, ids)) && !(r.callId in ids && r.callId in ReplyIds(rs))
  {
    GroundedSnoc(rs, r, ids);
    GroundedIds(rs, ids);
    DistinctSnoc(Grounded(rs, ids), r);
  }

  /** Replies in the order of the calls. */
  lemma {:induction false} GroundedInOrder(calls: seq<ToolCall>, rs: seq<Reply>, ids: set<string>)
    requires ReplyEach(rs, calls) && |rs| == |calls|
    ensures Distinct(Grounded(rs, ids)) <==>
            forall x, y :: 0 <= x < y < |calls| && calls[x].id in ids ==> calls[x].id != calls[y].id
    decreases |calls|
  {
    if calls != [] {
      var n := |calls| - 1;
      assert rs == rs[..n] + [rs[n]];
      GroundedInOrder(calls[..n], rs[..n], ids);
      GroundedOnce(rs[..n], rs[n], ids);
      RepliedBefore(calls, rs, n);
    }
  }

  lemma RepliedBefore(calls: seq<ToolCall>, rs: seq<Reply>, n: nat)
    requires ReplyEach(rs, calls) && n <= |rs|
    ensures forall id :: id in ReplyIds(rs[..n]) <==> exists x :: 0 <= x < n && calls[x].id == id
  {
    forall id | exists x :: 0 <= x < n && calls[x].id == id
      ensures id in ReplyIds(rs[..n])
    {
      var x :| 0 <= x < n && calls[x].id == id;
      assert rs[..n][x] in rs[..n];
    }
  }

  lemma AnsweredOnceIff(calls: seq<ToolCall>, rs: seq<Reply>)
    requires ReplyEach(rs, calls) && |rs| == |calls|
    ensures Distinct(Grounded(rs, CallIds(calls))) <==> DistinctNamed(calls)
  {
    GroundedInOrder(calls, rs, CallIds(calls));
    assert forall x :: 0 <= x < |calls| ==> calls[x] in calls;
    assert forall x :: 0 <= x < |calls| ==> (calls[x].id in CallIds(calls) <==> calls[x].id != "");
  }

  // ---- an id used twice in one answer ----

  lemma PairedDoubles(ms: seq<Message>)
    requires Paired(ms)
    ensures WellPaired(ms) <==> NoDoubles(ms)
  {
    forall i | 0 <= i < |Blocks(ms)|
      ensures Grounded(Blocks(ms)[i].replies, Blocks(ms)[i].Offered()) == Blocks(ms)[i].replies
    {
      assert Blocks(ms)[i].Balanced();
      GroundedAll(Blocks(ms)[i].replies, Blocks(ms)[i].Offered());
    }
  }

  lemma DoublesAfter(h: seq<Message>, turn: Turn, rs: seq<Reply>)
    ensures NoDoubles(After(h, Some(turn), rs)) <==> NoDoubles(h) && Distinct(Grounded(rs, TurnIds(turn)))
  {
    AfterBlocks(h, turn, rs);
    var bs, cs := Blocks(h), Blocks(After(h, Some(turn), rs));
    assert cs[|bs|] == Block(Some(turn), rs);
    assert forall i :: 0 <= i < |bs| ==> cs[i] == bs[i];
  }

  /** Main result for a round that goes on. What it leaves has one reply for each call exactly when the history had
      no double replies and no call of the answer lacks an id or shares it; what the model is sent next, exactly when
      the history had none and no two calls with an id share it. */
  lemma NextExactIff(w: World, c: Conv, step: nat)
    requires Enumerates(w.order) && Round(w, c, step).1.Continue?
    ensures var ms, calls := Round(w, c, step).0.messages, AnswerCalls(w, c);
      && (WellPaired(Repaired(ms, w.order)) <==> NoDoubles(c.messages) && DistinctNamed(calls))
      && (WellPaired(ms) <==> NoDoubles(c.messages) && DistinctNamed(calls) && Named(calls))
  {
    var ms, h := Round(w, c, step).0.messages, Repaired(c.messages, w.order);
    var rs := RoundOn(w, c, step);
    var r := w.model(AnswerIndex(w, c));
    RepairPairs(c.messages, w.order);
    RepairExactIff(c.messages, w.order);
    PairedDoubles(h);
    DoublesAfter(h, AnswerTurn(r).value, rs);
    AnsweredOnceIff(r.calls, rs);
    RepairExactIff(ms, w.order);
    RepairOnlyFirst(w, c, step);
    ExactIsPaired(ms);
    RepairFixpoint(ms, w.order);
  }

  lemma ExactIsPaired(ms: seq<Message>)
    ensures WellPaired(ms) ==> Paired(ms)
  {
    if WellPaired(ms) {
      assert forall i :: 0 <= i < |Blocks(ms)| ==> Blocks(ms)[i].Exact();
    }
  }

  /** An answer that uses an id twice has both calls replied to: the next history is paired, but not well paired. */
  lemma RepeatedIdBreaks(w: World, c: Conv, step: nat)
    requires Enumerates(w.order) && Round(w, c, step).1.Continue?
    requires Named(AnswerCalls(w, c)) && !DistinctCalls(AnswerCalls(w, c))
    ensures var ms := Round(w, c, step).0.messages;
      Repaired(ms, w.order) == ms && Paired(ms) && !WellPaired(ms)
  {
    NextExactIff(w, c, step);
    RepairOnlyFirst(w, c, step);
    RepairFixpoint(Round(w, c, step).0.messages, w.order);
  }

  // ---- a late reply ----

  /** A late reply leaves one reply for each call exactly when there were no doubles before
      and the open turn does not offer its call, or has no reply to it yet. */
  lemma LateReplyExactIff(ms: seq<Message>, r: Reply, order: Order)
    requires Enumerates(order)
    ensures WellPaired(Repaired(ms + [Tool(r)], order)) <==>
            NoDoubles(ms) && !(r.callId in Open(ms).Offered() && r.callId in ReplyIds(Open(ms).replies))
  {
    RepairExactIff(ms + [Tool(r)], order);
    BlocksSnoc(ms, Tool(r));
    DoublesSnoc(Blocks(ms), r);
  }

  predicate Single(b: Block) { Distinct(Grounded(b.replies, b.Offered())) }

  lemma DoublesSnoc(bs: seq<Block>, r: Reply)
    requires bs != []
    ensures var cs, b := Append(bs, Tool(r)), bs[|bs| - 1];
      (forall i :: 0 <= i < |cs| ==> Single(cs[i])) <==>
        (forall i :: 0 <= i < |bs| ==> Single(bs[i])) && !(r.callId in b.Offered() && r.callId in ReplyIds(b.replies))
  {
    var n := |bs| - 1;
    var cs := Append(bs, Tool(r));
    assert |cs| == |bs| && cs[n] == Block(bs[n].head, bs[n].replies + [r]);
    assert forall i :: 0 <= i < n ==> cs[i] == bs[i];
    SingleWith(bs[n], r);
  }

  lemma SingleWith(b: Block, r: Reply)
    ensures Single(Block(b.head, b.replies + [r])) <==>
            Single(b) && !(r.callId in b.Offered() && r.callId in ReplyIds(b.replies))
  {
    GroundedOnce(b.replies, r, b.Offered());
  }
}
