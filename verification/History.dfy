/** A conversation history, read as blocks: a turn followed by the tool replies right after it.
    `remote_terminal/brain.py` keeps it as a flat list of role-tagged messages. */
module History {
  import opened Prelude

  /** One requested call. An absent id reads as the empty string. */
  datatype ToolCall = ToolCall(id: string, name: string, arguments: string)

  datatype Turn =
    | System(text: string)
    | User(text: string)
    | Assistant(text: string, calls: seq<ToolCall>)

  datatype Reply = Reply(callId: string, output: string)

  datatype Message = Spoken(turn: Turn) | Tool(reply: Reply) {
    predicate IsUser() { Spoken? && turn.User? }
  }

  /** The order in which a set of ids is walked: any enumeration, the language promises no particular one. */
  type Order = set<string> -> seq<string>

  ghost predicate Enumerates(order: Order) {
    forall s: set<string> :: multiset(order(s)) == multiset(s)
  }

  const NO_RESULT := "(执行中断,无结果)"
  const CALLS_CUT := "(工具调用中断,继续)"

  function CallIds(calls: seq<ToolCall>): set<string> {
    set c | c in calls && c.id != "" :: c.id
  }

  function TurnIds(t: Turn): set<string> {
    if t.Assistant? then CallIds(t.calls) else {}
  }

  function ReplyIds(replies: seq<Reply>): set<string> {
    set r | r in replies :: r.callId
  }

  /** A turn and the maximal run of tool replies after it; `head` is None before the first turn. */
  datatype Block = Block(head: Option<Turn>, replies: seq<Reply>) {
    function Offered(): set<string> { if head.Some? then TurnIds(head.value) else {} }

    predicate Balanced() { ReplyIds(replies) == Offered() }

    predicate Exact() { Balanced() && Distinct(replies) }

    function Text(): seq<Message> {
      (if head.Some? then [Spoken(head.value)] else []) + ToolMessages(replies)
    }
  }

  predicate Distinct(replies: seq<Reply>) {
    forall i, j :: 0 <= i < j < |replies| ==> replies[i].callId != replies[j].callId
  }

  function ToolMessages(replies: seq<Reply>): seq<Message> {
    seq(|replies|, i requires 0 <= i < |replies| => Tool(replies[i]))
  }

  function Blocks(ms: seq<Message>): (bs: seq<Block>)
    ensures Parsed(bs)
  {
    if ms == [] then [Block(None, [])] else Append(Blocks(ms[..|ms| - 1]), ms[|ms| - 1])
  }

  /** One more message: a turn opens a block, a tool reply joins the last one. */
  function Append(bs: seq<Block>, m: Message): seq<Block>
    requires |bs| > 0
  {
    var n := |bs| - 1;
    match m
    case Spoken(t) => bs + [Block(Some(t), [])]
    case Tool(r) => bs[..n] + [Block(bs[n].head, bs[n].replies + [r])]
  }

  predicate Parsed(bs: seq<Block>) {
    && |bs| > 0 && bs[0].head.None?
    && forall i :: 0 < i < |bs| ==> bs[i].head.Some?
  }

  function Flatten(bs: seq<Block>): seq<Message> {
    if bs == [] then [] else Flatten(bs[..|bs| - 1]) + bs[|bs| - 1].Text()
  }

  function Open(ms: seq<Message>): Block { Blocks(ms)[|Blocks(ms)| - 1] }

  /** Every call id of every turn is answered right after it, and nothing else is. */
  predicate Paired(ms: seq<Message>) {
    forall i :: 0 <= i < |Blocks(ms)| ==> Blocks(ms)[i].Balanced()
  }

  /** The same, with exactly one reply for each call id. */
  predicate WellPaired(ms: seq<Message>) {
    forall i :: 0 <= i < |Blocks(ms)| ==> Blocks(ms)[i].Exact()
  }

  // ---- parsing and printing are inverse ----

  lemma FlattenAppend(bs: seq<Block>, m: Message)
    requires |bs| > 0
    ensures Flatten(Append(bs, m)) == Flatten(bs) + [m]
  {
    var n := |bs| - 1;
    match m {
      case Spoken(t) =>
        assert Append(bs, m)[..n + 1] == bs;
        assert Block(Some(t), []).Text() == [m];
      case Tool(r) =>
        assert Append(bs, m)[..n] == bs[..n];
        TextSnoc(bs[n].head, bs[n].replies, r);
    }
  }

  lemma TextSnoc(head: Option<Turn>, replies: seq<Reply>, r: Reply)
    ensures Block(head, replies + [r]).Text() == Block(head, replies).Text() + [Tool(r)]
  {
    assert ToolMessages(replies + [r]) == ToolMessages(replies) + [Tool(r)];
  }

  lemma {:induction false} PrintParsed(ms: seq<Message>)
    ensures Flatten(Blocks(ms)) == ms
  {
    if ms == [] {
      assert Block(None, []).Text() == [];
    } else {
      var k := |ms| - 1;
      PrintParsed(ms[..k]);
      FlattenAppend(Blocks(ms[..k]), ms[k]);
    }
  }

  lemma BlocksSnoc(ms: seq<Message>, m: Message)
    ensures Blocks(ms + [m]) == Append(Blocks(ms), m)
  {
    assert (ms + [m])[..|ms|] == ms;
  }

  lemma {:induction false} ParsePrinted(bs: seq<Block>)
    requires Parsed(bs)
    ensures Blocks(Flatten(bs)) == bs
    decreases |bs|, |bs[|bs| - 1].replies|
  {
    var n := |bs| - 1;
    var b := bs[n];
    if b.replies != [] {
      var k := |b.replies| - 1;
      var shorter := bs[..n] + [Block(b.head, b.replies[..k])];
      ParsePrinted(shorter);
      ReplyPeeled(bs);
      Reappended(bs, shorter, Tool(b.replies[k]));
    } else if n > 0 {
      ParsePrinted(bs[..n]);
      Reappended(bs, bs[..n], Spoken(b.head.value));
    } else {
      assert b.Text() == [];
    }
  }

  lemma ReplyPeeled(bs: seq<Block>)
    requires |bs| > 0 && bs[|bs| - 1].replies != []
    ensures var b := bs[|bs| - 1];
      var k := |b.replies| - 1;
      Append(bs[..|bs| - 1] + [Block(b.head, b.replies[..k])], Tool(b.replies[k])) == bs
  {
    var b := bs[|bs| - 1];
    assert b.replies[..|b.replies| - 1] + [b.replies[|b.replies| - 1]] == b.replies;
  }

  lemma Reappended(bs: seq<Block>, shorter: seq<Block>, m: Message)
    requires |shorter| > 0 && Append(shorter, m) == bs && Blocks(Flatten(shorter)) == shorter
    ensures Blocks(Flatten(bs)) == bs
  {
    FlattenAppend(shorter, m);
    BlocksSnoc(Flatten(shorter), m);
  }

  // ---- where a block sits in the flat list ----

  lemma {:induction false} FlattenConcat(a: seq<Block>, b: seq<Block>)
    ensures Flatten(a + b) == Flatten(a) + Flatten(b)
  {
    if b == [] {
      assert a + b == a;
    } else {
      var front := b[..|b| - 1];
      FlattenConcat(a, front);
      FlattenStep(a, b);
      assert Flatten(b) == Flatten(front) + b[|b| - 1].Text();
    }
  }

  lemma FlattenStep(a: seq<Block>, b: seq<Block>)
    requires b != []
    ensures Flatten(a + b) == Flatten(a + b[..|b| - 1]) + b[|b| - 1].Text()
  {
    assert (a + b)[..|a + b| - 1] == a + b[..|b| - 1];
  }

  lemma TakeBlock(bs: seq<Block>, k: nat)
    requires k < |bs|
    ensures Flatten(bs[..k + 1]) == Flatten(bs[..k]) + bs[k].Text()
  {
    assert bs[..k + 1][..k] == bs[..k];
  }

  lemma DropBlockText(bs: seq<Block>, k: nat)
    requires k < |bs|
    ensures Flatten(bs[k..]) == bs[k].Text() + Flatten(bs[k + 1..])
  {
    assert bs[k..] == [bs[k]] + bs[k + 1..];
    FlattenConcat([bs[k]], bs[k + 1..]);
    TakeBlock([bs[k]], 0);
  }

  function Start(bs: seq<Block>, k: nat): nat
    requires k <= |bs|
  {
    |Flatten(bs[..k])|
  }

  lemma Layout(ms: seq<Message>, k: nat)
    requires k < |Blocks(ms)|
    ensures Start(Blocks(ms), k) <= Start(Blocks(ms), k + 1) <= |ms|
    ensures ms[Start(Blocks(ms), k)..Start(Blocks(ms), k + 1)] == Blocks(ms)[k].Text()
  {
    var bs := Blocks(ms);
    PrintParsed(ms);
    assert bs == bs[..k + 1] + bs[k + 1..];
    FlattenConcat(bs[..k + 1], bs[k + 1..]);
    TakeBlock(bs, k);
    MiddleSlice(ms, Flatten(bs[..k]), bs[k].Text(), Flatten(bs[k + 1..]));
  }

  lemma MiddleSlice<T>(s: seq<T>, a: seq<T>, b: seq<T>, c: seq<T>)
    requires s == (a + b) + c
    ensures |a| <= |a + b| <= |s| && s[|a|..|a + b|] == b
  {
  }

  /** The message at an offset of block k. */
  lemma LayoutAt(ms: seq<Message>, k: nat, x: nat)
    requires k < |Blocks(ms)| && x < |Blocks(ms)[k].Text()|
    ensures Start(Blocks(ms), k) + x < |ms| && ms[Start(Blocks(ms), k) + x] == Blocks(ms)[k].Text()[x]
  {
    Layout(ms, k);
    var from, to := Start(Blocks(ms), k), Start(Blocks(ms), k + 1);
    assert ms[from..to][x] == ms[from + x];
  }

  lemma {:induction false} Locate(ms: seq<Message>, i: nat, n: nat) returns (k: nat)
    requires n <= |Blocks(ms)| && i < Start(Blocks(ms), n)
    ensures k < n && Start(Blocks(ms), k) <= i < Start(Blocks(ms), k + 1)
  {
    if i < Start(Blocks(ms), n - 1) {
      k := Locate(ms, i, n - 1);
    } else {
      k := n - 1;
    }
  }

  lemma LocateMessage(ms: seq<Message>, i: nat) returns (k: nat)
    requires i < |ms|
    ensures k < |Blocks(ms)| && Start(Blocks(ms), k) <= i < Start(Blocks(ms), k + 1)
  {
    var bs := Blocks(ms);
    PrintParsed(ms);
    assert bs[..|bs|] == bs;
    k := Locate(ms, i, |bs|);
  }

  /** Message j is a reply, and message i is the turn nearest before it, which requested that call. */
  predicate Answers(ms: seq<Message>, i: nat, j: nat) {
    && i < j < |ms| && ms[i].Spoken? && ms[j].Tool?
    && ms[j].reply.callId in TurnIds(ms[i].turn)
    && forall k :: i < k < j ==> ms[k].Tool?
  }

  ghost predicate PairedByIndex(ms: seq<Message>) {
    && (forall j {:trigger ms[j]} :: 0 <= j < |ms| && ms[j].Tool? ==> exists i: nat :: Answers(ms, i, j))
    && (forall i: nat, c {:trigger c in TurnIds(ms[i].turn)} ::
          i < |ms| && ms[i].Spoken? && c in TurnIds(ms[i].turn)
          ==> exists j: nat :: Answers(ms, i, j) && ms[j].reply.callId == c)
  }

  /** A reply of block k sits in the flat list after the block's turn, with only replies between. */
  lemma ReplyAt(ms: seq<Message>, k: nat, x: nat) returns (j: nat)
    requires k < |Blocks(ms)| && x < |Blocks(ms)[k].replies|
    ensures Start(Blocks(ms), k) <= j < |ms| && ms[j] == Tool(Blocks(ms)[k].replies[x])
    ensures Blocks(ms)[k].head.Some? ==>
      Start(Blocks(ms), k) < j && ms[Start(Blocks(ms), k)] == Spoken(Blocks(ms)[k].head.value)
    ensures Blocks(ms)[k].head.None? ==> forall i :: 0 <= i < j ==> ms[i].Tool?
    ensures forall i :: Start(Blocks(ms), k) < i < j ==> ms[i].Tool?
  {
    var b, from := Blocks(ms)[k], Start(Blocks(ms), k);
    var h := if b.head.Some? then 1 else 0;
    j := from + h + x;
    LayoutAt(ms, k, h + x);
    if h == 1 {
      LayoutAt(ms, k, 0);
    }
    forall i | from + h <= i < j
      ensures ms[i].Tool?
    {
      LayoutAt(ms, k, i - from);
    }
    assert k == 0 ==> from == 0;
  }

  lemma HeadAt(ms: seq<Message>, k: nat)
    requires k < |Blocks(ms)| && Blocks(ms)[k].head.Some?
    ensures Start(Blocks(ms), k) < |ms| && ms[Start(Blocks(ms), k)] == Spoken(Blocks(ms)[k].head.value)
  {
    LayoutAt(ms, k, 0);
  }

  /** A position that no turn separates from the head of block k lies in block k. */
  lemma InBlock(ms: seq<Message>, k: nat, j: nat)
    requires k < |Blocks(ms)| && Blocks(ms)[k].head.Some?
    requires Start(Blocks(ms), k) < j < |ms| && ms[j].Tool?
    requires forall i :: Start(Blocks(ms), k) < i < j ==> ms[i].Tool?
    ensures ms[j].reply in Blocks(ms)[k].replies
  {
    BeforeNext(ms, k, j);
    LayoutAt(ms, k, j - Start(Blocks(ms), k));
  }

  lemma BeforeNext(ms: seq<Message>, k: nat, j: nat)
    requires k < |Blocks(ms)| && Blocks(ms)[k].head.Some? && Start(Blocks(ms), k) < j < |ms|
    requires forall i :: Start(Blocks(ms), k) < i <= j ==> ms[i].Tool?
    ensures j - Start(Blocks(ms), k) < |Blocks(ms)[k].Text()|
  {
    var bs := Blocks(ms);
    Layout(ms, k);
    PrintParsed(ms);
    assert bs[..|bs|] == bs;
    if k + 1 < |bs| {
      TakeBlock(bs, k);
      HeadAt(ms, k + 1);
    }
  }

  lemma RepliesOffered(ms: seq<Message>, k: nat, r: Reply)
    requires PairedByIndex(ms) && k < |Blocks(ms)| && r in Blocks(ms)[k].replies
    ensures r.callId in Blocks(ms)[k].Offered()
  {
    var b := Blocks(ms)[k];
    var x :| 0 <= x < |b.replies| && b.replies[x] == r;
    var j := ReplyAt(ms, k, x);
    var i: nat :| Answers(ms, i, j);
    NearestTurn(ms, k, i, j);
  }

  lemma NearestTurn(ms: seq<Message>, k: nat, i: nat, j: nat)
    requires k < |Blocks(ms)| && Answers(ms, i, j) && Start(Blocks(ms), k) <= j
    requires Blocks(ms)[k].head.None? ==> forall x :: 0 <= x < j ==> ms[x].Tool?
    requires Blocks(ms)[k].head.Some? ==>
      Start(Blocks(ms), k) < j && ms[Start(Blocks(ms), k)] == Spoken(Blocks(ms)[k].head.value)
    requires forall x :: Start(Blocks(ms), k) < x < j ==> ms[x].Tool?
    ensures Blocks(ms)[k].head == Some(ms[i].turn)
  {
    var from := Start(Blocks(ms), k);
    assert ms[i].Spoken? && (Blocks(ms)[k].head.Some? ==> ms[from].Spoken?);
    assert from <= i;
  }

  lemma OfferedReplied(ms: seq<Message>, k: nat, c: string)
    requires PairedByIndex(ms) && k < |Blocks(ms)| && c in Blocks(ms)[k].Offered()
    ensures c in ReplyIds(Blocks(ms)[k].replies)
  {
    HeadAt(ms, k);
    var i := Start(Blocks(ms), k);
    assert c in TurnIds(ms[i].turn);
    var j: nat :| Answers(ms, i, j) && ms[j].reply.callId == c;
    InBlock(ms, k, j);
  }

  /** Paired, said of positions in the flat list. */
  lemma PairedMeaning(ms: seq<Message>)
    ensures Paired(ms) <==> PairedByIndex(ms)
  {
    if PairedByIndex(ms) {
      forall k | 0 <= k < |Blocks(ms)|
        ensures Blocks(ms)[k].Balanced()
      {
        forall r | r in Blocks(ms)[k].replies { RepliesOffered(ms, k, r); }
        forall c | c in Blocks(ms)[k].Offered() { OfferedReplied(ms, k, c); }
      }
    }
    if Paired(ms) {
      forall j | 0 <= j < |ms| && ms[j].Tool? { ReplyGrounded(ms, j); }
      forall i: nat, c | i < |ms| && ms[i].Spoken? && c in TurnIds(ms[i].turn) { CallAnswered(ms, i, c); }
    }
  }

  lemma ReplyGrounded(ms: seq<Message>, j: nat)
    requires Paired(ms) && j < |ms| && ms[j].Tool?
    ensures exists i: nat :: Answers(ms, i, j)
  {
    var k := LocateMessage(ms, j);
    var b, i := Blocks(ms)[k], Start(Blocks(ms), k);
    Layout(ms, k);
    LayoutAt(ms, k, j - i);
    assert ms[j].reply in b.replies && ms[j].reply.callId in b.Offered();
    HeadAt(ms, k);
    forall x | i < x < j
      ensures ms[x].Tool?
    {
      LayoutAt(ms, k, x - i);
    }
    assert Answers(ms, i, j);
  }

  lemma CallAnswered(ms: seq<Message>, i: nat, c: string)
    requires Paired(ms) && i < |ms| && ms[i].Spoken? && c in TurnIds(ms[i].turn)
    ensures exists j: nat :: Answers(ms, i, j) && ms[j].reply.callId == c
  {
    var k := LocateMessage(ms, i);
    var b := Blocks(ms)[k];
    Layout(ms, k);
    LayoutAt(ms, k, i - Start(Blocks(ms), k));
    assert c in ReplyIds(b.replies);
    var x :| 0 <= x < |b.replies| && b.replies[x].callId == c;
    var j := ReplyAt(ms, k, x);
    assert Answers(ms, i, j);
  }

  // ---- dropping orphans ----

  function Grounded(replies: seq<Reply>, ids: set<string>): (kept: seq<Reply>)
    ensures ReplyIds(kept) <= ids
  {
    if replies == [] then [] else
    var n := |replies| - 1;
    Grounded(replies[..n], ids) + if replies[n].callId in ids then [replies[n]] else []
  }

  function DropBlock(b: Block): Block {
    b.(replies := Grounded(b.replies, b.Offered()))
  }

  function DropAll(bs: seq<Block>): seq<Block> {
    seq(|bs|, i requires 0 <= i < |bs| => DropBlock(bs[i]))
  }

  /** The history without the tool replies that answer no call of the turn they follow. */
  function Dropped(ms: seq<Message>): seq<Message> { Flatten(DropAll(Blocks(ms))) }

  // ---- repairing ----

  function Placeholders(ids: seq<string>): seq<Reply> {
    seq(|ids|, i requires 0 <= i < |ids| => Reply(ids[i], NO_RESULT))
  }

  function Missing(b: Block): set<string> { b.Offered() - ReplyIds(b.replies) }

  function FillBlock(b: Block, order: Order): Block {
    b.(replies := b.replies + Placeholders(order(Missing(b))))
  }

  function FillAll(bs: seq<Block>, order: Order): seq<Block> {
    seq(|bs|, i requires 0 <= i < |bs| => FillBlock(bs[i], order))
  }

  function Repaired(ms: seq<Message>, order: Order): seq<Message> {
    Flatten(FillAll(DropAll(Blocks(ms)), order))
  }

  lemma ReplyIdsConcat(a: seq<Reply>, b: seq<Reply>)
    ensures ReplyIds(a + b) == ReplyIds(a) + ReplyIds(b)
  {
  }

  lemma ReplyIdsSnoc(a: seq<Reply>, r: Reply)
    ensures ReplyIds(a + [r]) == ReplyIds(a) + {r.callId}
  {
    ReplyIdsConcat(a, [r]);
    assert r in [r];
  }

  lemma GroundedSnoc(front: seq<Reply>, r: Reply, ids: set<string>)
    ensures Grounded(front + [r], ids) == if r.callId in ids then Grounded(front, ids) + [r] else Grounded(front, ids)
    ensures ReplyIds(front + [r]) == ReplyIds(front) + {r.callId}
  {
    assert (front + [r])[..|front|] == front;
    ReplyIdsSnoc(front, r);
  }

  lemma {:induction false} GroundedIds(replies: seq<Reply>, ids: set<string>)
    ensures ReplyIds(Grounded(replies, ids)) == ReplyIds(replies) * ids
  {
    if replies != [] {
      var front, r := replies[..|replies| - 1], replies[|replies| - 1];
      assert replies == front + [r];
      GroundedIds(front, ids);
      GroundedSnoc(front, r, ids);
      ReplyIdsSnoc(Grounded(front, ids), r);
    }
  }

  /** Nothing is dropped from a run exactly when all its ids are on offer. */
  lemma {:induction false} GroundedAll(replies: seq<Reply>, ids: set<string>)
    ensures |Grounded(replies, ids)| <= |replies|
    ensures ReplyIds(replies) <= ids ==> Grounded(replies, ids) == replies
    ensures |Grounded(replies, ids)| == |replies| ==> ReplyIds(replies) <= ids
  {
    if replies != [] {
      var front, r := replies[..|replies| - 1], replies[|replies| - 1];
      assert replies == front + [r];
      GroundedAll(front, ids);
      GroundedSnoc(front, r, ids);
      KeptAll(front, Grounded(front, ids), r, ReplyIds(front), ids);
    }
  }

  lemma KeptAll(front: seq<Reply>, kept: seq<Reply>, r: Reply, used: set<string>, ids: set<string>)
    requires |kept| <= |front| && (used <= ids ==> kept == front) && (|kept| == |front| ==> used <= ids)
    ensures var more := if r.callId in ids then kept + [r] else kept;
      && |more| <= |front + [r]|
      && (used + {r.callId} <= ids ==> more == front + [r])
      && (|more| == |front + [r]| ==> used + {r.callId} <= ids)
  {
  }

  lemma PlaceholderIds(ids: seq<string>)
    ensures ReplyIds(Placeholders(ids)) == set i | i in ids
  {
    var ps := Placeholders(ids);
    assert forall i :: 0 <= i < |ids| ==> ps[i].callId == ids[i] && ps[i] in ps;
  }

  lemma EnumeratedOnce(order: Order, s: set<string>)
    requires Enumerates(order)
    ensures (set x | x in order(s)) == s
    ensures forall i, j :: 0 <= i < j < |order(s)| ==> order(s)[i] != order(s)[j]
    ensures order(s) == [] <==> s == {}
  {
    var o := order(s);
    assert forall x :: x in o <==> x in multiset(o);
    assert forall x :: x in s <==> x in multiset(s);
    forall i, j | 0 <= i < j < |o| && o[i] == o[j]
      ensures false
    {
      TwiceCounted(o, i, j);
    }
  }

  /** The replies of a repaired block: the grounded ones, then the placeholders. */
  lemma FilledReplies(b: Block, order: Order) returns (kept: seq<Reply>, added: seq<Reply>)
    requires Enumerates(order)
    ensures kept == Grounded(b.replies, b.Offered())
    ensures FillBlock(DropBlock(b), order) == b.(replies := kept + added)
    ensures ReplyIds(kept) == ReplyIds(b.replies) * b.Offered()
    ensures ReplyIds(added) == b.Offered() - ReplyIds(b.replies)
    ensures |added| == |b.Offered() - ReplyIds(b.replies)|
    ensures Distinct(added)
    ensures forall p :: p in added ==> p.output == NO_RESULT
  {
    kept := Grounded(b.replies, b.Offered());
    GroundedIds(b.replies, b.Offered());
    var gap := b.Offered() - ReplyIds(b.replies);
    assert Missing(DropBlock(b)) == gap;
    EnumeratedOnce(order, gap);
    PlaceholderIds(order(gap));
    added := Placeholders(order(gap));
    assert |multiset(order(gap))| == |multiset(gap)|;
  }

  lemma DistinctConcat(a: seq<Reply>, b: seq<Reply>)
    requires ReplyIds(a) !! ReplyIds(b) && Distinct(b)
    ensures Distinct(a + b) <==> Distinct(a)
  {
    if Distinct(a) {
      forall i, j | 0 <= i < j < |a + b|
        ensures (a + b)[i].callId != (a + b)[j].callId
      {
        if i < |a| <= j {
          assert a[i].callId in ReplyIds(a) && b[j - |a|].callId in ReplyIds(b);
        }
      }
    } else {
      var i, j :| 0 <= i < j < |a| && a[i].callId == a[j].callId;
      assert (a + b)[i] == a[i] && (a + b)[j] == a[j];
    }
  }

  lemma FilledBlock(b: Block, order: Order)
    requires Enumerates(order)
    ensures FillBlock(DropBlock(b), order).Balanced()
    ensures FillBlock(DropBlock(b), order).Exact() <==> Distinct(Grounded(b.replies, b.Offered()))
  {
    var kept, added := FilledReplies(b, order);
    ReplyIdsConcat(kept, added);
    DistinctConcat(kept, added);
  }

  lemma FilledSame(b: Block, order: Order)
    requires Enumerates(order)
    ensures FillBlock(DropBlock(b), order) == b <==> b.Balanced()
  {
    FilledBlock(b, order);
    if b.Balanced() {
      var kept, added := FilledReplies(b, order);
      GroundedAll(b.replies, b.Offered());
      assert added == [];
      assert kept + added == b.replies;
    }
  }

  lemma RepairedBlocks(ms: seq<Message>, order: Order)
    ensures Blocks(Repaired(ms, order)) == FillAll(DropAll(Blocks(ms)), order)
    ensures Blocks(Dropped(ms)) == DropAll(Blocks(ms))
  {
    ParsePrinted(DropAll(Blocks(ms)));
    ParsePrinted(FillAll(DropAll(Blocks(ms)), order));
  }

  /** Whatever the list, every call of the repaired list is answered in its own run and nothing else is. */
  lemma RepairPairs(ms: seq<Message>, order: Order)
    requires Enumerates(order)
    ensures Paired(Repaired(ms, order))
  {
    RepairedBlocks(ms, order);
    forall i | 0 <= i < |Blocks(ms)|
      ensures Blocks(Repaired(ms, order))[i].Balanced()
    {
      FilledBlock(Blocks(ms)[i], order);
    }
  }

  /** No call has two replies in its own run. */
  predicate NoDoubles(ms: seq<Message>) {
    forall i :: 0 <= i < |Blocks(ms)| ==> Distinct(Grounded(Blocks(ms)[i].replies, Blocks(ms)[i].Offered()))
  }

  /** Exactly one reply for each call, if and only if no call had been answered twice before. */
  lemma RepairExactIff(ms: seq<Message>, order: Order)
    requires Enumerates(order)
    ensures WellPaired(Repaired(ms, order)) <==> NoDoubles(ms)
  {
    RepairedBlocks(ms, order);
    var bs, rs := Blocks(ms), Blocks(Repaired(ms, order));
    forall i | 0 <= i < |bs|
      ensures rs[i].Exact() <==> Distinct(Grounded(bs[i].replies, bs[i].Offered()))
    {
      FilledBlock(bs[i], order);
    }
  }

  /** Repair leaves a list alone exactly when it is already paired. */
  lemma RepairFixpoint(ms: seq<Message>, order: Order)
    requires Enumerates(order)
    ensures Repaired(ms, order) == ms <==> Paired(ms)
  {
    RepairedBlocks(ms, order);
    PrintParsed(ms);
    var bs, rs := Blocks(ms), Blocks(Repaired(ms, order));
    assert |rs| == |bs|;
    forall i | 0 <= i < |bs|
      ensures rs[i] == bs[i] <==> bs[i].Balanced()
    {
      FilledSame(bs[i], order);
    }
    if Paired(ms) {
      assert rs == bs;
    }
  }

  lemma RepairTwice(ms: seq<Message>, order: Order)
    requires Enumerates(order)
    ensures Repaired(Repaired(ms, order), order) == Repaired(ms, order)
  {
    RepairPairs(ms, order);
    RepairFixpoint(Repaired(ms, order), order);
  }

  // ---- what repair keeps ----

  function Turns(ms: seq<Message>): seq<Turn> {
    if ms == [] then [] else
    var n := |ms| - 1;
    Turns(ms[..n]) + if ms[n].Spoken? then [ms[n].turn] else []
  }

  function Heads(bs: seq<Block>): seq<Turn> {
    if bs == [] then [] else
    var n := |bs| - 1;
    Heads(bs[..n]) + if bs[n].head.Some? then [bs[n].head.value] else []
  }

  lemma {:induction false} TurnsAreHeads(ms: seq<Message>)
    ensures Turns(ms) == Heads(Blocks(ms))
  {
    if ms != [] {
      var k := |ms| - 1;
      TurnsAreHeads(ms[..k]);
      var bs := Blocks(ms[..k]);
      var n := |bs| - 1;
      assert Blocks(ms)[..|Blocks(ms)| - 1] == if ms[k].Spoken? then bs else bs[..n];
    } else {
      assert Heads([Block(None, [])]) == [];
    }
  }

  lemma {:induction false} SameHeads(a: seq<Block>, b: seq<Block>)
    requires |a| == |b| && forall i :: 0 <= i < |a| ==> a[i].head == b[i].head
    ensures Heads(a) == Heads(b)
  {
    if a != [] {
      SameHeads(a[..|a| - 1], b[..|b| - 1]);
    }
  }

  /** The non-tool messages survive in order; block by block, every grounded reply survives in order
      and each unanswered call gains exactly one placeholder, after them. */
  lemma RepairMinimal(ms: seq<Message>, order: Order)
    requires Enumerates(order)
    ensures Turns(Repaired(ms, order)) == Turns(ms)
    ensures |Blocks(Repaired(ms, order))| == |Blocks(ms)|
    ensures forall i :: 0 <= i < |Blocks(ms)| ==>
      var b, r := Blocks(ms)[i], Blocks(Repaired(ms, order))[i];
      var kept := Grounded(b.replies, b.Offered());
      && r.head == b.head
      && kept <= r.replies
      && |r.replies| == |kept| + |b.Offered() - ReplyIds(b.replies)|
      && ReplyIds(r.replies[|kept|..]) == b.Offered() - ReplyIds(b.replies)
      && forall p :: p in r.replies[|kept|..] ==> p.output == NO_RESULT
  {
    RepairedBlocks(ms, order);
    var bs, rs := Blocks(ms), Blocks(Repaired(ms, order));
    TurnsAreHeads(ms);
    TurnsAreHeads(Repaired(ms, order));
    SameHeads(bs, rs);
    forall i | 0 <= i < |bs|
      ensures var b, r := bs[i], rs[i];
        var kept := Grounded(b.replies, b.Offered());
        && kept <= r.replies
        && |r.replies| == |kept| + |b.Offered() - ReplyIds(b.replies)|
        && ReplyIds(r.replies[|kept|..]) == b.Offered() - ReplyIds(b.replies)
        && forall p :: p in r.replies[|kept|..] ==> p.output == NO_RESULT
    {
      var kept, added := FilledReplies(bs[i], order);
      assert rs[i].replies[|kept|..] == added;
    }
  }
}
