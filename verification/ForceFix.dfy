/** The harder repair used before a retry: strip the calls of a turn whose replies are incomplete. */
module ForceFix {
  import opened Prelude
  import opened History

  /** An assistant turn loses its calls when one of them has no reply; its text is kept, or a stand-in if empty. */
  function StripBlock(b: Block): Block {
    if b.head.Some? && b.head.value.Assistant? && b.head.value.calls != [] && Missing(b) != {} then
      b.(head := Some(Assistant(if b.head.value.text != "" then b.head.value.text else CALLS_CUT, [])))
    else b
  }

  function StripAll(bs: seq<Block>, from: nat): seq<Block> {
    seq(|bs|, i requires 0 <= i < |bs| => if i >= from then StripBlock(bs[i]) else bs[i])
  }

  /** The block of the last user turn, or the first block when there is none. */
  function LastUser(bs: seq<Block>): (k: nat)
    ensures k <= |bs| && (bs != [] ==> k < |bs|)
  {
    if bs == [] then 0 else
    var n := |bs| - 1;
    if bs[n].head.Some? && bs[n].head.value.User? then n else LastUser(bs[..n])
  }

  function Stripped(ms: seq<Message>): seq<Message> {
    Flatten(StripAll(Blocks(ms), LastUser(Blocks(ms))))
  }

  function ForceFixed(ms: seq<Message>): seq<Message> { Dropped(Stripped(ms)) }

  lemma ForceFixedBlocks(ms: seq<Message>)
    ensures Blocks(Stripped(ms)) == StripAll(Blocks(ms), LastUser(Blocks(ms)))
    ensures Blocks(ForceFixed(ms)) == DropAll(StripAll(Blocks(ms), LastUser(Blocks(ms))))
  {
    ParsePrinted(StripAll(Blocks(ms), LastUser(Blocks(ms))));
    ParsePrinted(DropAll(Blocks(Stripped(ms))));
  }

  predicate Answered(b: Block) { b.Offered() <= ReplyIds(b.replies) }

  lemma DroppedBalance(b: Block)
    ensures DropBlock(b).Balanced() <==> Answered(b)
  {
    GroundedIds(b.replies, b.Offered());
  }

  /** What becomes of block i. */
  lemma FixedBlock(ms: seq<Message>, i: nat) returns (b: Block)
    requires i < |Blocks(ms)|
    ensures b == if i < LastUser(Blocks(ms)) then Blocks(ms)[i] else StripBlock(Blocks(ms)[i])
    ensures |Blocks(ForceFixed(ms))| == |Blocks(ms)| && Blocks(ForceFixed(ms))[i] == DropBlock(b)
  {
    ForceFixedBlocks(ms);
    b := if i < LastUser(Blocks(ms)) then Blocks(ms)[i] else StripBlock(Blocks(ms)[i]);
  }

  lemma StripAnswers(b: Block)
    ensures Answered(StripBlock(b))
  {
    if Missing(b) == {} {
      forall c | c in b.Offered()
        ensures c in ReplyIds(b.replies)
      {
        assert c !in Missing(b);
      }
    } else {
      assert StripBlock(b).Offered() == {};
    }
  }

  /** The result is wholly paired exactly when the turns before the last user turn had all their replies. */
  lemma ForceFixPairsIff(ms: seq<Message>)
    ensures Paired(ForceFixed(ms)) <==>
            forall i :: 0 <= i < LastUser(Blocks(ms)) ==> Answered(Blocks(ms)[i])
  {
    ForceFixedBlocks(ms);
    forall i | 0 <= i < |Blocks(ms)|
      ensures Blocks(ForceFixed(ms))[i].Balanced() <==> (i < LastUser(Blocks(ms)) ==> Answered(Blocks(ms)[i]))
    {
      var b := FixedBlock(ms, i);
      DroppedBalance(b);
      StripAnswers(Blocks(ms)[i]);
    }
  }

  lemma BalancedUnfixed(b: Block)
    requires b.Balanced()
    ensures StripBlock(b) == b && DropBlock(b) == b
  {
    assert Missing(b) == {};
    GroundedAll(b.replies, b.Offered());
  }

  /** On a paired history, such as one just repaired, it changes nothing. */
  lemma ForceFixIdentity(ms: seq<Message>)
    requires Paired(ms)
    ensures ForceFixed(ms) == ms
  {
    ForceFixedBlocks(ms);
    forall i | 0 <= i < |Blocks(ms)|
      ensures Blocks(ForceFixed(ms))[i] == Blocks(ms)[i]
    {
      var b := FixedBlock(ms, i);
      BalancedUnfixed(Blocks(ms)[i]);
    }
    SameBlocks(ms, ForceFixed(ms));
  }

  lemma SameBlocks(a: seq<Message>, b: seq<Message>)
    requires |Blocks(a)| == |Blocks(b)| && forall i :: 0 <= i < |Blocks(a)| ==> Blocks(b)[i] == Blocks(a)[i]
    ensures a == b
  {
    assert Blocks(a) == Blocks(b);
    PrintParsed(a);
    PrintParsed(b);
  }

  /** A turn keeps its role and its non-empty text; only an assistant may lose its calls or gain a stand-in text. */
  predicate SpeechKept(before: Turn, after: Turn) {
    || after == before
    || (before.Assistant? && after.Assistant? && after.calls == []
        && after.text == if before.text == "" then CALLS_CUT else before.text)
  }

  lemma {:induction false} HeadsKept(a: seq<Block>, b: seq<Block>)
    requires |a| == |b|
    requires forall i :: 0 <= i < |a| ==> a[i].head.Some? == b[i].head.Some?
    requires forall i :: 0 <= i < |a| ==> a[i].head.Some? ==> SpeechKept(a[i].head.value, b[i].head.value)
    ensures |Heads(a)| == |Heads(b)|
    ensures forall i :: 0 <= i < |Heads(a)| ==> SpeechKept(Heads(a)[i], Heads(b)[i])
  {
    if a != [] {
      HeadsKept(a[..|a| - 1], b[..|b| - 1]);
    }
  }

  /** No user turn and no non-empty assistant text is lost or reordered. */
  lemma ForceFixKeepsSpeech(ms: seq<Message>)
    ensures |Turns(ForceFixed(ms))| == |Turns(ms)|
    ensures forall i :: 0 <= i < |Turns(ms)| ==> SpeechKept(Turns(ms)[i], Turns(ForceFixed(ms))[i])
  {
    var a, b := Blocks(ms), Blocks(ForceFixed(ms));
    ForceFixedBlocks(ms);
    TurnsAreHeads(ms);
    TurnsAreHeads(ForceFixed(ms));
    forall i | 0 <= i < |a|
      ensures a[i].head.Some? == b[i].head.Some?
      ensures a[i].head.Some? ==> SpeechKept(a[i].head.value, b[i].head.value)
    {
      var f := FixedBlock(ms, i);
    }
    HeadsKept(a, b);
  }

  // ---- block by block ----

  /** The last user turn, or the first block when there is none. */
  lemma {:induction false} LastUserIs(bs: seq<Block>)
    ensures forall i :: LastUser(bs) < i < |bs| ==> !(bs[i].head.Some? && bs[i].head.value.User?)
    ensures (exists i :: 0 <= i < |bs| && bs[i].head.Some? && bs[i].head.value.User?) ==>
      LastUser(bs) < |bs| && bs[LastUser(bs)].head.Some? && bs[LastUser(bs)].head.value.User?
    ensures (forall i :: 0 <= i < |bs| ==> !(bs[i].head.Some? && bs[i].head.value.User?)) ==> LastUser(bs) == 0
  {
    if bs != [] {
      var n := |bs| - 1;
      LastUserIs(bs[..n]);
      assert forall i :: 0 <= i < n ==> bs[..n][i] == bs[i];
    }
  }

  /** An assistant with an unanswered call. */
  predicate Incomplete(b: Block) {
    b.head.Some? && b.head.value.Assistant? && !(b.Offered() <= ReplyIds(b.replies))
  }

  /** It loses its calls, and with them its replies. */
  predicate CallsLost(b: Block, f: Block)
    requires Incomplete(b)
  {
    var text := b.head.value.text;
    f.head == Some(Assistant(if text == "" then "(工具调用中断,继续)" else text, [])) && f.replies == []
  }

  lemma StripMeaning(b: Block)
    ensures if Incomplete(b) then CallsLost(b, DropBlock(StripBlock(b))) else StripBlock(b) == b
  {
    if Missing(b) == {} {
      forall c | c in b.Offered()
        ensures c in ReplyIds(b.replies)
      {
        assert c !in Missing(b);
      }
    }
    if Incomplete(b) {
      var c :| c in b.Offered() && c !in ReplyIds(b.replies);
      assert c in Missing(b) && b.head.value.calls != [];
      assert StripBlock(b).Offered() == {};
      NoneGrounded(b.replies);
    }
  }

  /** From the last user turn on an assistant with an unanswered call loses its calls; every other turn stays,
      and so do the replies that answer it. */
  lemma ForceFixExact(ms: seq<Message>, i: nat)
    requires i < |Blocks(ms)|
    ensures |Blocks(ForceFixed(ms))| == |Blocks(ms)|
    ensures var b, f := Blocks(ms)[i], Blocks(ForceFixed(ms))[i];
      if i >= LastUser(Blocks(ms)) && Incomplete(b) then CallsLost(b, f)
      else f == Block(b.head, Grounded(b.replies, b.Offered()))
  {
    var s := FixedBlock(ms, i);
    StripMeaning(Blocks(ms)[i]);
  }

  lemma {:induction false} NoneGrounded(replies: seq<Reply>)
    ensures Grounded(replies, {}) == []
  {
    if replies != [] {
      NoneGrounded(replies[..|replies| - 1]);
    }
  }
}
