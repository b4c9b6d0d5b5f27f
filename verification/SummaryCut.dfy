/** Cutting a history at a user turn, as the rolling summary of `remote_terminal/brain.py` does. */
module SummaryCut {
  import opened Prelude
  import opened History

  function UserIndexes(ms: seq<Message>): (u: seq<nat>)
    ensures forall x :: x in u ==> x < |ms| && ms[x].IsUser()
  {
    if ms == [] then [] else
    var n := |ms| - 1;
    UserIndexes(ms[..n]) + if ms[n].IsUser() then [n] else []
  }

  /** `user_idx[-keep]`, where index -0 is the first entry. */
  function Cut(ms: seq<Message>, keep: nat): (c: nat)
    requires |UserIndexes(ms)| > keep
    ensures c < |ms| && ms[c].IsUser()
  {
    var u := UserIndexes(ms);
    assert forall i :: 0 <= i < |u| ==> u[i] in u;
    if keep == 0 then u[0] else u[|u| - keep]
  }

  lemma {:induction false} UsersConcat(a: seq<Message>, b: seq<Message>)
    ensures |UserIndexes(a + b)| == |UserIndexes(a)| + |UserIndexes(b)|
  {
    if b == [] {
      assert a + b == a;
    } else {
      var n := |b| - 1;
      UsersConcat(a, b[..n]);
      UsersSnoc(a + b[..n], b[n]);
      assert a + b == a + b[..n] + [b[n]];
    }
  }

  lemma UsersSnoc(ms: seq<Message>, m: Message)
    ensures UserIndexes(ms + [m]) == UserIndexes(ms) + if m.IsUser() then [|ms|] else []
  {
    assert (ms + [m])[..|ms|] == ms;
  }

  /** The prefix before the j-th user turn holds j user turns. */
  lemma {:induction false} UsersBefore(ms: seq<Message>, j: nat)
    requires j < |UserIndexes(ms)|
    ensures UserIndexes(ms)[j] < |ms|
    ensures |UserIndexes(ms[..UserIndexes(ms)[j]])| == j
  {
    var n := |ms| - 1;
    var u := UserIndexes(ms);
    assert u[j] in u;
    if j < |UserIndexes(ms[..n])| {
      UsersBefore(ms[..n], j);
      assert ms[..n][..u[j]] == ms[..u[j]];
    }
  }

  /** A suffix that opens with a turn keeps its blocks. */
  lemma {:induction false} SuffixBlocks(a: seq<Message>, b: seq<Message>)
    requires b != [] && b[0].Spoken?
    ensures Blocks(b)[0] == Block(None, []) && |Blocks(b)| > 1
    ensures Blocks(a + b) == Blocks(a) + Blocks(b)[1..]
  {
    var n := |b| - 1;
    assert a + b == (a + b[..n]) + [b[n]] && b == b[..n] + [b[n]];
    BlocksSnoc(a + b[..n], b[n]);
    BlocksSnoc(b[..n], b[n]);
    if n == 0 {
      assert a + b[..n] == a;
    } else {
      SuffixBlocks(a, b[..n]);
      AppendConcat(Blocks(a), Blocks(b[..n]), b[n]);
    }
  }

  lemma AppendConcat(a: seq<Block>, b: seq<Block>, m: Message)
    requires |a| > 0 && |b| > 1
    ensures Append(a + b[1..], m) == a + Append(b, m)[1..] && Append(b, m)[0] == b[0]
  {
    var n := |b| - 1;
    assert (a + b[1..])[..|a| + n - 1] == a + b[1..n];
  }

  predicate AllBlocks(ms: seq<Message>, p: Block -> bool) {
    forall i :: 0 <= i < |Blocks(ms)| ==> p(Blocks(ms)[i])
  }

  /** What holds of every block of a history holds of every block of a suffix that opens with a turn. */
  lemma SuffixKeeps(a: seq<Message>, b: seq<Message>, p: Block -> bool)
    requires b != [] && b[0].Spoken? && p(Block(None, []))
    requires AllBlocks(a + b, p)
    ensures AllBlocks(b, p)
  {
    SuffixBlocks(a, b);
    forall i | 0 <= i < |Blocks(b)|
      ensures p(Blocks(b)[i])
    {
      if i > 0 {
        assert Blocks(b)[i] == Blocks(a + b)[|Blocks(a)| + i - 1];
      }
    }
  }

  /** Cutting loses nothing, keeps exactly `keep` user turns, starts at one of them,
      and a well-paired history stays well paired. */
  lemma CutKeeps(ms: seq<Message>, keep: nat)
    requires |UserIndexes(ms)| > keep
    ensures var c := Cut(ms, keep);
      && ms[..c] + ms[c..] == ms
      && ms[c..][0].IsUser()
      && |UserIndexes(ms[c..])| == (if keep == 0 then |UserIndexes(ms)| else keep)
      && (Paired(ms) ==> Paired(ms[c..]))
      && (WellPaired(ms) ==> WellPaired(ms[c..]))
      && (NoDoubles(ms) ==> NoDoubles(ms[c..]))
  {
    var c := Cut(ms, keep);
    assert ms == ms[..c] + ms[c..];
    UsersBefore(ms, if keep == 0 then 0 else |UserIndexes(ms)| - keep);
    UsersConcat(ms[..c], ms[c..]);
    if Paired(ms) { SuffixKeeps(ms[..c], ms[c..], (b: Block) => b.Balanced()); }
    if WellPaired(ms) { SuffixKeeps(ms[..c], ms[c..], (b: Block) => b.Exact()); }
    if NoDoubles(ms) { SuffixKeeps(ms[..c], ms[c..], (b: Block) => Distinct(Grounded(b.replies, b.Offered()))); }
  }
}
