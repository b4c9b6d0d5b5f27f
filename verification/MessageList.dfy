/** The message list itself, edited in place. Python's list is an object that the session shares with
    these functions. */
module MessageLists {
  import opened Prelude
  import opened History
  import opened ForceFix

  class MessageList {
    var items: seq<Message>

    constructor (initial: seq<Message>)
      ensures items == initial
    {
      items := initial;
    }

    method Add(m: Message)
      modifies this
      ensures items == old(items) + [m]
    {
      items := items + [m];
    }

    /** Deletes the tool replies that do not answer a call of the turn they follow. */
    method DropOrphanTools() returns (dropped: bool)
      modifies this
      ensures items == Dropped(old(items))
      ensures if dropped then |items| < |old(items)| else items == old(items)
    {
      var valid: set<string> := {};
      var out: seq<Message> := [];
      dropped := false;
      for i := 0 to |items|
        invariant items == old(items)
        invariant (out, valid) == Scan(items[..i])
        invariant if dropped then |out| < i else |out| == i
      {
        assert items[..i + 1][..i] == items[..i];
        match items[i] {
          case Tool(r) =>
            if r.callId in valid {
              out := out + [items[i]];
            } else {
              dropped := true;
            }
          case Spoken(t) =>
            valid := if t.Assistant? then CallIds(t.calls) else {};
            out := out + [items[i]];
        }
      }
      assert items[..|items|] == items;
      ScanDrops(items);
      if dropped {
        items := out;
      }
    }

    /** The run of tool messages after position i, and the ids it answers. */
    method ScanReplies(i: nat) returns (j: nat, found: set<string>)
      requires i < |items|
      ensures i < j <= |items|
      ensures forall k :: i < k < j ==> items[k].Tool?
      ensures j < |items| ==> items[j].Spoken?
      ensures found == set k | i < k < j && items[k].Tool? && items[k].reply.callId != "" :: items[k].reply.callId
    {
      j := i + 1;
      found := {};
      while j < |items| && items[j].Tool?
        invariant i < j <= |items|
        invariant forall k :: i < k < j ==> items[k].Tool?
        invariant found == set k | i < k < j && items[k].Tool? && items[k].reply.callId != "" :: items[k].reply.callId
      {
        if items[j].reply.callId != "" {
          found := found + {items[j].reply.callId};
        }
        j := j + 1;
      }
    }

    /** Drops the orphans, then gives every unanswered call a placeholder after the replies it has.
        The list grows while it is scanned. */
    method RepairHistory(order: Order) returns (repaired: bool)
      requires Enumerates(order)
      modifies this
      ensures items == Repaired(old(items), order)
      ensures repaired <==> items != old(items)
    {
      repaired := DropOrphanTools();
      ghost var ms := old(items);
      ghost var bs := DropAll(Blocks(ms));
      ghost var k, done, rest := 1, [], items;
      ghost var sound := Flag(ms, order);
      ScanStart(ms, order);
      var i := 0;
      while i < |items|
        invariant i == |done| && items == done + rest
        invariant Clean(bs) && Passed(bs, k, order, done, rest)
        invariant if repaired then !sound else items == ms
        decreases |rest|
      {
        ghost var b, tail := ScanNext(bs, k, order, done, rest);
        var filled;
        i, filled := FillTurn(i, order, done, b, tail);
        repaired := repaired || filled;
        k, done, rest := k + 1, done + FillBlock(b, order).Text(), tail;
      }
      ScanEnd(bs, k, order, done);
    }

    /** The turn at position i: nothing to do unless it is an assistant with calls. */
    method FillTurn(i: nat, order: Order, ghost done: seq<Message>, ghost b: Block, ghost tail: seq<Message>)
      returns (j: nat, filled: bool)
      requires Enumerates(order)
      requires i == |done| && items == done + (b.Text() + tail)
      requires b.head.Some? && ReplyIds(b.replies) <= b.Offered()
      requires tail == [] || tail[0].Spoken?
      modifies this
      ensures items == (done + FillBlock(b, order).Text()) + tail
      ensures j == |done + FillBlock(b, order).Text()|
      ensures filled <==> Missing(b) != {}
      ensures !filled ==> items == old(items)
    {
      HeadText(b);
      if items[i].turn.Assistant? && items[i].turn.calls != [] {
        j, filled := FillCalls(i, order, done, b, tail);
      } else {
        HasNoCalls(b, order);
        Reassociate(done, b.Text(), tail);
        j, filled := i + 1, false;
      }
    }

    /** The assistant at position i: finds its replies and inserts the missing ones after them. */
    method FillCalls(i: nat, order: Order, ghost done: seq<Message>, ghost b: Block, ghost tail: seq<Message>)
      returns (j: nat, filled: bool)
      requires Enumerates(order)
      requires i == |done| && items == done + (b.Text() + tail)
      requires b.head.Some? && b.head.value.Assistant?
      requires tail == [] || tail[0].Spoken?
      modifies this
      ensures items == done + FillBlock(b, order).Text() + tail
      ensures j == |done + FillBlock(b, order).Text()|
      ensures filled <==> Missing(b) != {}
      ensures !filled ==> items == old(items)
    {
      HeadText(b);
      var needed := CallIds(items[i].turn.calls);
      var found;
      j, found := ScanReplies(i);
      ScanStops(items, done, b, tail, j);
      ScanFinds(items, done, b, tail, found);
      var missing := needed - found;
      filled := missing != {};
      if filled {
        SplitThere(items, done, b.Text(), tail, j);
        InsertPlaceholders(j, order(missing));
        FilledText(b, order);
        Regroup(done, b.Text(), ToolMessages(Placeholders(order(missing))), tail);
        j := j + |order(missing)|;
      } else {
        NothingMissing(b, order);
        Reassociate(done, b.Text(), tail);
      }
    }

    /** Strips the incomplete calls from the last user turn on, then drops the orphans this leaves. */
    method ForceFixHistory()
      modifies this
      ensures items == ForceFixed(old(items))
    {
      if items == [] {
        NothingToStrip();
        DroppedEmpty();
        return;
      }
      ghost var bs := Blocks(items);
      var lastUser := FindLastUser();
      ghost var k, done, rest := StripStart(items);
      for idx := lastUser to |items|
        invariant |items| == |old(items)|
        invariant idx <= |done| && items == done + rest
        invariant forall x :: idx <= x < |done| ==> done[x].Tool?
        invariant Parsed(bs) && StripPassed(bs, k, done, rest)
      {
        TurnFirst(bs, k, rest);
        if items[idx].Spoken? {
          ghost var b, tail := NextTurn(bs, k, rest);
          StripTurn(idx, done, b, tail);
          StripNext(bs, k, done, rest, tail);
          k, done, rest := k + 1, done + StripBlock(b).Text(), tail;
        }
      }
      assert rest == [] && items == done;
      StripEnd(bs, k, done);
      var _ := DropOrphanTools();
    }

    /** Position of the last user message, or 0. */
    method FindLastUser() returns (lastUser: nat)
      ensures lastUser == Start(Blocks(items), LastUser(Blocks(items)))
    {
      lastUser := 0;
      for idx := 0 to |items|
        invariant lastUser == Start(Blocks(items[..idx]), LastUser(Blocks(items[..idx])))
      {
        assert items[..idx + 1] == items[..idx] + [items[idx]];
        LastUserSnoc(items[..idx], items[idx]);
        if items[idx].IsUser() {
          lastUser := idx;
        }
      }
      assert items[..|items|] == items;
    }

    /** The turn at position idx: if it is an assistant whose calls are not all answered, the calls go. */
    method StripTurn(idx: nat, ghost done: seq<Message>, ghost b: Block, ghost tail: seq<Message>)
      requires idx == |done| && items == done + (b.Text() + tail) && b.head.Some?
      requires tail == [] || tail[0].Spoken?
      modifies this
      ensures items == (done + StripBlock(b).Text()) + tail
      ensures |items| == |old(items)|
    {
      HeadText(b);
      Reassociate(done, b.Text(), tail);
      var t := items[idx].turn;
      if t.Assistant? && t.calls != [] {
        var needed := CallIds(t.calls);
        var j, found := ScanReplies(idx);
        ScanStops(items, done, b, tail, j);
        ScanFinds(items, done, b, tail, found);
        if needed - found != {} {
          HeadReplaced(done, b, tail, StripBlock(b).head.value);
          items := items[idx := Spoken(Assistant(if t.text != "" then t.text else CALLS_CUT, []))];
        }
      }
    }

    method InsertPlaceholders(at: nat, ids: seq<string>)
      requires at <= |items|
      modifies this
      ensures items == old(items)[..at] + (ToolMessages(Placeholders(ids)) + old(items)[at..])
    {
      var j := at;
      for n := 0 to |ids|
        invariant j == at + n && at <= |old(items)|
        invariant items == old(items)[..at] + (ToolMessages(Placeholders(ids[..n])) + old(items)[at..])
      {
        items := items[..j] + [Tool(Reply(ids[n], NO_RESULT))] + items[j..];
        j := j + 1;
        PlaceholderSnoc(ids, n);
      }
      assert ids[..|ids|] == ids;
    }
  }

  lemma PlaceholderSnoc(ids: seq<string>, n: nat)
    requires n < |ids|
    ensures ToolMessages(Placeholders(ids[..n + 1])) ==
            ToolMessages(Placeholders(ids[..n])) + [Tool(Reply(ids[n], NO_RESULT))]
  {
  }

  // ---- the scan of RepairHistory, block by block ----

  /** No orphan replies. */
  predicate Clean(bs: seq<Block>) {
    && Parsed(bs)
    && bs[0] == Block(None, [])
    && forall i :: 0 <= i < |bs| ==> ReplyIds(bs[i].replies) <= bs[i].Offered()
  }

  lemma FirstReplyId(replies: seq<Reply>)
    ensures replies == [] || replies[0].callId in ReplyIds(replies)
  {
  }

  lemma DroppedClean(ms: seq<Message>)
    ensures Clean(DropAll(Blocks(ms)))
  {
    FirstReplyId(DropAll(Blocks(ms))[0].replies);
  }

  /** The list changes exactly when it was not paired: an orphan goes or a placeholder comes. */
  lemma Flag(ms: seq<Message>, order: Order) returns (sound: bool)
    requires Enumerates(order)
    ensures sound <==> Repaired(ms, order) == ms
    ensures sound ==> Dropped(ms) == ms
    ensures sound ==> forall i :: 0 <= i < |Blocks(ms)| ==> Missing(DropAll(Blocks(ms))[i]) == {}
  {
    RepairFixpoint(ms, order);
    sound := Paired(ms);
    if sound {
      forall i | 0 <= i < |Blocks(ms)|
        ensures DropBlock(Blocks(ms)[i]) == Blocks(ms)[i]
      {
        GroundedAll(Blocks(ms)[i].replies, Blocks(ms)[i].Offered());
      }
      assert DropAll(Blocks(ms)) == Blocks(ms);
      PrintParsed(ms);
    }
  }

  lemma NothingMissing(b: Block, order: Order)
    requires Enumerates(order) && Missing(b) == {}
    ensures FillBlock(b, order) == b
  {
    EnumeratedOnce(order, {});
  }

  lemma FilledText(b: Block, order: Order)
    ensures FillBlock(b, order).Text() == b.Text() + ToolMessages(Placeholders(order(Missing(b))))
  {
  }

  /** `done` is what the scan has passed: the first k blocks, filled; `rest` is what it has not. */
  predicate Passed(bs: seq<Block>, k: nat, order: Order, done: seq<Message>, rest: seq<Message>) {
    && 1 <= k <= |bs|
    && done == Flatten(FillAll(bs[..k], order))
    && rest == Flatten(bs[k..])
  }

  lemma ScanStart(ms: seq<Message>, order: Order)
    requires Enumerates(order)
    ensures Clean(DropAll(Blocks(ms))) && Passed(DropAll(Blocks(ms)), 1, order, [], Dropped(ms))
  {
    DroppedClean(ms);
    FirstFilled(DropAll(Blocks(ms)), order);
  }

  lemma FirstFilled(bs: seq<Block>, order: Order)
    requires Enumerates(order) && Clean(bs)
    ensures Passed(bs, 1, order, [], Flatten(bs))
  {
    assert bs[0].Text() == [];
    NothingMissing(bs[0], order);
    EmptyBlock(bs[0]);
    assert FillAll(bs[..1], order) == [bs[0]];
    EmptyFirst(bs);
  }

  lemma EmptyBlock(b: Block)
    requires b.Text() == []
    ensures Flatten([b]) == []
  {
    assert [b][..0] == [];
  }

  lemma EmptyFirst(bs: seq<Block>)
    requires |bs| > 0 && bs[0].Text() == []
    ensures Flatten(bs) == Flatten(bs[1..])
  {
    DropBlockText(bs, 0);
    assert bs[0..] == bs;
  }

  /** Unless the scan is over, a turn comes next. */
  lemma NextTurn(bs: seq<Block>, k: nat, rest: seq<Message>) returns (b: Block, tail: seq<Message>)
    requires Parsed(bs) && 1 <= k <= |bs| && rest == Flatten(bs[k..]) && rest != []
    ensures k < |bs| && b == bs[k] && b.head.Some? && tail == Flatten(bs[k + 1..])
    ensures rest == b.Text() + tail && |tail| < |rest| && rest[0] == Spoken(b.head.value)
    ensures tail == [] || tail[0].Spoken?
  {
    b, tail := bs[k], Flatten(bs[k + 1..]);
    DropBlockText(bs, k);
    HeadText(b);
    if k + 1 < |bs| {
      DropBlockText(bs, k + 1);
      HeadText(bs[k + 1]);
    }
  }

  lemma ScanNext(bs: seq<Block>, k: nat, order: Order, done: seq<Message>, rest: seq<Message>)
    returns (b: Block, tail: seq<Message>)
    requires Clean(bs) && Passed(bs, k, order, done, rest) && rest != []
    ensures k < |bs| && b == bs[k] && b.head.Some?
    ensures rest == b.Text() + tail && |tail| < |rest| && rest[0] == Spoken(b.head.value)
    ensures tail == [] || tail[0].Spoken?
    ensures ReplyIds(b.replies) <= b.Offered()
    ensures Passed(bs, k + 1, order, done + FillBlock(b, order).Text(), tail)
  {
    b, tail := NextTurn(bs, k, rest);
    assert FillAll(bs[..k + 1], order) == FillAll(bs[..k], order) + [FillBlock(b, order)];
    TakeBlock(FillAll(bs[..k + 1], order), k);
  }

  lemma TurnFirst(bs: seq<Block>, k: nat, rest: seq<Message>)
    requires Parsed(bs) && 1 <= k <= |bs| && rest == Flatten(bs[k..])
    ensures rest == [] || rest[0].Spoken?
  {
    if rest != [] {
      var b, tail := NextTurn(bs, k, rest);
    }
  }

  lemma LastTurn(bs: seq<Block>, k: nat)
    requires Parsed(bs) && 1 <= k <= |bs| && Flatten(bs[k..]) == []
    ensures k == |bs| && bs[..k] == bs
  {
    if k < |bs| {
      DropBlockText(bs, k);
      HeadText(bs[k]);
    }
  }

  lemma ScanEnd(bs: seq<Block>, k: nat, order: Order, done: seq<Message>)
    requires Clean(bs) && Passed(bs, k, order, done, [])
    ensures done == Flatten(FillAll(bs, order))
  {
    LastTurn(bs, k);
  }

  // ---- the scan of ForceFixHistory ----

  predicate StripPassed(bs: seq<Block>, k: nat, done: seq<Message>, rest: seq<Message>) {
    && 1 <= k <= |bs| && LastUser(bs) <= k
    && done == Flatten(StripAll(bs, LastUser(bs))[..k])
    && rest == Flatten(bs[k..])
  }

  lemma NothingToStrip()
    ensures Stripped([]) == []
  {
    var bs := Blocks([]);
    assert StripAll(bs, LastUser(bs)) == bs;
    PrintParsed([]);
  }

  lemma StripStart(ms: seq<Message>) returns (k: nat, done: seq<Message>, rest: seq<Message>)
    ensures ms == done + rest && StripPassed(Blocks(ms), k, done, rest)
    ensures Start(Blocks(ms), LastUser(Blocks(ms))) <= |done|
    ensures forall x :: Start(Blocks(ms), LastUser(Blocks(ms))) <= x < |done| ==> done[x].Tool?
  {
    var bs := Blocks(ms);
    var from := LastUser(bs);
    k := if from == 0 then 1 else from;
    done, rest := Flatten(bs[..k]), Flatten(bs[k..]);
    assert StripAll(bs, from)[..k] == bs[..k];
    FlattenSplit(ms, k);
    if from == 0 {
      TakeBlock(bs, 0);
      assert done == bs[0].Text() == ToolMessages(bs[0].replies);
    }
  }

  lemma FlattenSplit(ms: seq<Message>, k: nat)
    requires k <= |Blocks(ms)|
    ensures ms == Flatten(Blocks(ms)[..k]) + Flatten(Blocks(ms)[k..])
  {
    PrintParsed(ms);
    assert Blocks(ms) == Blocks(ms)[..k] + Blocks(ms)[k..];
    FlattenConcat(Blocks(ms)[..k], Blocks(ms)[k..]);
  }

  lemma StripNext(bs: seq<Block>, k: nat, done: seq<Message>, rest: seq<Message>, tail: seq<Message>)
    requires Parsed(bs) && StripPassed(bs, k, done, rest) && k < |bs| && tail == Flatten(bs[k + 1..])
    ensures StripPassed(bs, k + 1, done + StripBlock(bs[k]).Text(), tail)
    ensures var next := done + StripBlock(bs[k]).Text();
      |done| < |next| && forall x :: |done| < x < |next| ==> next[x].Tool?
  {
    TakeBlock(StripAll(bs, LastUser(bs)), k);
    HeadText(StripBlock(bs[k]));
  }

  lemma StripEnd(bs: seq<Block>, k: nat, done: seq<Message>)
    requires Parsed(bs) && StripPassed(bs, k, done, [])
    ensures done == Flatten(StripAll(bs, LastUser(bs)))
  {
    LastTurn(bs, k);
    assert StripAll(bs, LastUser(bs))[..k] == StripAll(bs, LastUser(bs));
  }

  lemma LastUserSnoc(ms: seq<Message>, m: Message)
    ensures var bs, cs := Blocks(ms), Blocks(ms + [m]);
      Start(cs, LastUser(cs)) == if m.IsUser() then |ms| else Start(bs, LastUser(bs))
  {
    BlocksSnoc(ms, m);
    PrintParsed(ms);
    LastUserAppend(Blocks(ms), m);
  }

  lemma LastUserAppend(bs: seq<Block>, m: Message)
    requires bs != []
    ensures var cs := Append(bs, m);
      Start(cs, LastUser(cs)) == if m.IsUser() then |Flatten(bs)| else Start(bs, LastUser(bs))
  {
    if m.Spoken? {
      LastUserNext(bs, Block(Some(m.turn), []));
    } else {
      var n := |bs| - 1;
      SameHeadLast(bs[..n], bs[n], Block(bs[n].head, bs[n].replies + [m.reply]), bs);
    }
  }

  lemma LastUserNext(bs: seq<Block>, b: Block)
    ensures LastUser(bs + [b]) == if b.head.Some? && b.head.value.User? then |bs| else LastUser(bs)
    ensures Start(bs + [b], LastUser(bs + [b])) ==
            if b.head.Some? && b.head.value.User? then |Flatten(bs)| else Start(bs, LastUser(bs))
  {
    assert (bs + [b])[..|bs|] == bs;
    TakeSnoc(bs, b, LastUser(bs));
  }

  lemma TakeSnoc<T>(s: seq<T>, x: T, k: nat)
    requires k <= |s|
    ensures (s + [x])[..k] == s[..k]
  {
  }

  /** A reply moves no turn. */
  lemma SameHeadLast(front: seq<Block>, a: Block, b: Block, bs: seq<Block>)
    requires a.head == b.head && bs == front + [a]
    ensures Start(bs, LastUser(bs)) == Start(front + [b], LastUser(front + [b]))
  {
    LastUserNext(front, a);
    LastUserNext(front, b);
  }

  // ---- one block in the list ----

  lemma HeadText(b: Block)
    requires b.head.Some?
    ensures b.Text() == [Spoken(b.head.value)] + ToolMessages(b.replies)
  {
  }

  lemma Regroup<T>(a: seq<T>, b: seq<T>, c: seq<T>, d: seq<T>)
    ensures (a + b) + (c + d) == a + (b + c) + d
    ensures |a + (b + c)| == |a| + |b| + |c|
  {
  }

  lemma SplitThere<T>(s: seq<T>, a: seq<T>, b: seq<T>, c: seq<T>, j: nat)
    requires s == a + (b + c) && j == |a| + |b|
    ensures s[..j] == a + b && s[j..] == c
  {
  }

  lemma HeadReplaced(done: seq<Message>, b: Block, tail: seq<Message>, turn: Turn)
    requires b.head.Some?
    ensures var ms, c := done + (b.Text() + tail), b.(head := Some(turn));
      |done| < |ms| && ms[|done| := Spoken(turn)] == (done + c.Text()) + tail
  {
    HeadText(b);
    HeadText(b.(head := Some(turn)));
  }

  /** A turn without calls has no replies either, and gains none. */
  lemma HasNoCalls(b: Block, order: Order)
    requires Enumerates(order) && b.head.Some? && ReplyIds(b.replies) <= b.Offered()
    requires b.head.value.Assistant? ==> b.head.value.calls == []
    ensures FillBlock(b, order).Text() == b.Text() == [Spoken(b.head.value)] && Missing(b) == {}
  {
    assert b.Offered() == {};
    FirstReplyId(b.replies);
    NothingMissing(b, order);
  }

  lemma ScanStops(ms: seq<Message>, done: seq<Message>, b: Block, tail: seq<Message>, j: nat)
    requires b.head.Some? && ms == done + (([Spoken(b.head.value)] + ToolMessages(b.replies)) + tail)
    requires tail == [] || tail[0].Spoken?
    requires |done| < j <= |ms|
    requires forall k :: |done| < k < j ==> ms[k].Tool?
    requires j < |ms| ==> ms[j].Spoken?
    ensures j == |done| + 1 + |b.replies|
  {
    var n := |done| + 1 + |b.replies|;
    assert n < |ms| ==> ms[n] == tail[0];
    assert forall x :: |done| < x < n ==> ms[x] == Tool(b.replies[x - |done| - 1]);
  }

  lemma ScanFinds(ms: seq<Message>, done: seq<Message>, b: Block, tail: seq<Message>, found: set<string>)
    requires b.head.Some? && ms == done + (([Spoken(b.head.value)] + ToolMessages(b.replies)) + tail)
    requires found == set k |
                        |done| < k < |done| + 1 + |b.replies| && ms[k].Tool? && ms[k].reply.callId != "" ::
                        ms[k].reply.callId
    ensures b.Offered() - found == Missing(b)
  {
    var from := |done| + 1;
    assert forall x :: 0 <= x < |b.replies| ==> ms[from + x] == Tool(b.replies[x]);
    forall c
      ensures c in found <==> c in ReplyIds(b.replies) && c != ""
    {
      if c in ReplyIds(b.replies) && c != "" {
        var x :| 0 <= x < |b.replies| && b.replies[x].callId == c;
        assert ms[from + x].reply.callId == c;
      }
      if c in found {
        var k :| |done| < k < from + |b.replies| && ms[k].Tool? && ms[k].reply.callId == c;
        assert ms[k] == Tool(b.replies[k - from]);
        assert b.replies[k - from] in b.replies;
      }
    }
  }

  lemma DroppedEmpty()
    ensures Dropped([]) == []
  {
    assert DropAll(Blocks([])) == Blocks([]);
    PrintParsed([]);
  }

  /** One more message: a turn is kept; a reply is kept when the open turn offers its id. */
  lemma DroppedSnoc(ms: seq<Message>, m: Message)
    ensures Dropped(ms + [m]) ==
            if m.Spoken? || m.reply.callId in Open(ms).Offered() then Dropped(ms) + [m] else Dropped(ms)
    ensures Open(ms + [m]).Offered() == if m.Spoken? then TurnIds(m.turn) else Open(ms).Offered()
  {
    BlocksSnoc(ms, m);
    DropAppend(Blocks(ms), m);
    AppendOffers(Blocks(ms), m);
    FlattenAppend(DropAll(Blocks(ms)), m);
  }

  lemma DroppedAt(ms: seq<Message>, i: nat)
    requires i < |ms|
    ensures var m, open := ms[i], Open(ms[..i]);
      && ms[..i + 1] == ms[..i] + [m]
      && Dropped(ms[..i + 1]) ==
         (if m.Spoken? || m.reply.callId in open.Offered() then Dropped(ms[..i]) + [m] else Dropped(ms[..i]))
      && Open(ms[..i + 1]).Offered() == if m.Spoken? then TurnIds(m.turn) else open.Offered()
  {
    assert ms[..i + 1] == ms[..i] + [ms[i]];
    DroppedSnoc(ms[..i], ms[i]);
  }

  /** The kept messages and the ids on offer, message by message. */
  function Scan(ms: seq<Message>): (seq<Message>, set<string>) {
    if ms == [] then ([], {}) else
    var m := ms[|ms| - 1];
    var (out, valid) := Scan(ms[..|ms| - 1]);
    match m
    case Tool(r) => (if r.callId in valid then out + [m] else out, valid)
    case Spoken(t) => (out + [m], TurnIds(t))
  }

  lemma {:induction false} ScanDrops(ms: seq<Message>)
    ensures Scan(ms) == (Dropped(ms), Open(ms).Offered())
    ensures |Dropped(ms)| <= |ms| && (|Dropped(ms)| == |ms| ==> Dropped(ms) == ms)
  {
    if ms == [] {
      DroppedEmpty();
    } else {
      var n := |ms| - 1;
      ScanDrops(ms[..n]);
      DroppedAt(ms, n);
      assert ms[..n + 1] == ms;
    }
  }

  lemma AppendOffers(bs: seq<Block>, m: Message)
    requires |bs| > 0
    ensures var cs := Append(bs, m);
      cs[|cs| - 1].Offered() == if m.Spoken? then TurnIds(m.turn) else bs[|bs| - 1].Offered()
  {
  }

  lemma DropAppend(bs: seq<Block>, m: Message)
    requires |bs| > 0
    ensures DropAll(Append(bs, m)) == if m.Spoken? || m.reply.callId in bs[|bs| - 1].Offered()
                                      then Append(DropAll(bs), m) else DropAll(bs)
  {
    if m.Tool? {
      var front, b := bs[..|bs| - 1], bs[|bs| - 1];
      assert bs == front + [b];
      DropAllSnoc(front, b);
      DropAllSnoc(front, Block(b.head, b.replies + [m.reply]));
      assert DropAll(bs)[..|front|] == DropAll(front);
      GroundedSnoc(b.replies, m.reply, b.Offered());
    } else {
      DropAllSnoc(bs, Block(Some(m.turn), []));
    }
  }

  lemma DropAllSnoc(bs: seq<Block>, b: Block)
    ensures DropAll(bs + [b]) == DropAll(bs) + [DropBlock(b)]
  {
  }
}
