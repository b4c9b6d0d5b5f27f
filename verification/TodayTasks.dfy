/** What today's plan is made of, task by task: where each candidate comes from, which of them are listed,
    and which of those the budget cuts. */
module TodayTasks {
  import opened Prelude
  import opened Rounding
  import opened DailyPlan

  // ---- the candidates ----

  function OfKind(tasks: seq<Task>, kind: Kind): seq<Task> {
    if tasks == [] then [] else
    var n := |tasks| - 1;
    OfKind(tasks[..n], kind) + if tasks[n].kind == kind then [tasks[n]] else []
  }

  lemma {:induction false} OfKindConcat(a: seq<Task>, b: seq<Task>, kind: Kind)
    ensures OfKind(a + b, kind) == OfKind(a, kind) + OfKind(b, kind)
  {
    if b == [] {
      assert a + b == a;
    } else {
      var front, t := b[..|b| - 1], b[|b| - 1];
      assert b == front + [t];
      OfKindConcat(a, front, kind);
      assert (a + b)[..|a + b| - 1] == a + front;
    }
  }

  /** All of the list or nothing. */
  function Mine(tasks: seq<Task>, kind: Kind, other: Kind): seq<Task> { if kind == other then tasks else [] }

  lemma {:induction false} OneKind(tasks: seq<Task>, kind: Kind, other: Kind)
    requires forall i :: 0 <= i < |tasks| ==> tasks[i].kind == kind
    ensures OfKind(tasks, other) == Mine(tasks, kind, other)
  {
    if tasks != [] {
      var n := |tasks| - 1;
      assert tasks == tasks[..n] + [tasks[n]];
      OneKind(tasks[..n], kind, other);
    }
  }

  /** The candidates of one kind, list by list. */
  lemma CandidatesOf(inp: Inputs, kind: Kind)
    ensures OfKind(Candidates(inp), kind) ==
            OfKind(PointTasks(inp.due, Review, 8), kind) + OfKind(MistakeTasks(inp.mistakes), kind)
            + OfKind(FormulaTasks(inp.formulas), kind)
            + (OfKind(WeakTasks(inp.weak, 3), kind) + OfKind(PointTasks(inp.unlearned, New, 12), kind))
            + OfKind(VocabTasks(inp), kind)
  {
    var due, mistakes := PointTasks(inp.due, Review, 8), MistakeTasks(inp.mistakes);
    var formulas := FormulaTasks(inp.formulas);
    var weak, news := WeakTasks(inp.weak, 3), PointTasks(inp.unlearned, New, 12);
    OfKindConcat(due, mistakes, kind);
    OfKindConcat(due + mistakes, formulas, kind);
    OfKindConcat(weak, news, kind);
    OfKindConcat(Urgent(inp), weak + news, kind);
    OfKindConcat(Urgent(inp) + (weak + news), VocabTasks(inp), kind);
  }

  /** What each list has of one kind: all of it or nothing. */
  lemma ListKinds(inp: Inputs, kind: Kind)
    requires kind != VocabReview && kind != VocabNew
    ensures OfKind(PointTasks(inp.due, Review, 8), kind) == Mine(PointTasks(inp.due, Review, 8), Review, kind)
    ensures OfKind(MistakeTasks(inp.mistakes), kind) == Mine(MistakeTasks(inp.mistakes), Mistake, kind)
    ensures OfKind(FormulaTasks(inp.formulas), kind) == Mine(FormulaTasks(inp.formulas), Formula, kind)
    ensures OfKind(WeakTasks(inp.weak, 3), kind) == Mine(WeakTasks(inp.weak, 3), Weak, kind)
    ensures OfKind(PointTasks(inp.unlearned, New, 12), kind) == Mine(PointTasks(inp.unlearned, New, 12), New, kind)
    ensures OfKind(VocabTasks(inp), kind) == []
  {
    OneKind(PointTasks(inp.due, Review, 8), Review, kind);
    OneKind(MistakeTasks(inp.mistakes), Mistake, kind);
    OneKind(FormulaTasks(inp.formulas), Formula, kind);
    WeakAreWeak(inp.weak, 3);
    OneKind(WeakTasks(inp.weak, 3), Weak, kind);
    OneKind(PointTasks(inp.unlearned, New, 12), New, kind);
    VocabAlone(inp, kind);
  }

  /** Of lists one after the other, all but one empty, that one is left. */
  lemma Alone(a: seq<Task>, b: seq<Task>, c: seq<Task>, d: seq<Task>, e: seq<Task>)
    ensures b == [] && c == [] && d == [] && e == [] ==> a + b + c + (d + e) + [] == a
    ensures a == [] && c == [] && d == [] && e == [] ==> a + b + c + (d + e) + [] == b
    ensures a == [] && b == [] && d == [] && e == [] ==> a + b + c + (d + e) + [] == c
    ensures a == [] && b == [] && c == [] && e == [] ==> a + b + c + (d + e) + [] == d
    ensures a == [] && b == [] && c == [] && d == [] ==> a + b + c + (d + e) + [] == e
  {
  }

  lemma KindAlone(inp: Inputs, kind: Kind)
    requires kind != VocabReview && kind != VocabNew
    ensures kind == Review ==> OfKind(Candidates(inp), kind) == PointTasks(inp.due, Review, 8)
    ensures kind == Mistake ==> OfKind(Candidates(inp), kind) == MistakeTasks(inp.mistakes)
    ensures kind == Formula ==> OfKind(Candidates(inp), kind) == FormulaTasks(inp.formulas)
    ensures kind == Weak ==> OfKind(Candidates(inp), kind) == WeakTasks(inp.weak, 3)
    ensures kind == New ==> OfKind(Candidates(inp), kind) == PointTasks(inp.unlearned, New, 12)
  {
    CandidatesOf(inp, kind);
    ListKinds(inp, kind);
    Alone(OfKind(PointTasks(inp.due, Review, 8), kind), OfKind(MistakeTasks(inp.mistakes), kind),
          OfKind(FormulaTasks(inp.formulas), kind), OfKind(WeakTasks(inp.weak, 3), kind),
          OfKind(PointTasks(inp.unlearned, New, 12), kind));
  }

  lemma VocabAlone(inp: Inputs, kind: Kind)
    requires kind != VocabReview && kind != VocabNew
    ensures OfKind(VocabTasks(inp), kind) == []
  {
    var tasks := VocabTasks(inp);
    forall i | 0 <= i < |tasks|
      ensures tasks[i].kind == VocabReview || tasks[i].kind == VocabNew
    {
    }
    NoneOfKind(tasks, kind);
  }

  lemma {:induction false} NoneOfKind(tasks: seq<Task>, kind: Kind)
    requires forall i :: 0 <= i < |tasks| ==> tasks[i].kind != kind
    ensures OfKind(tasks, kind) == []
  {
    if tasks != [] {
      NoneOfKind(tasks[..|tasks| - 1], kind);
    }
  }

  predicate FromPoint(t: Task, kp: KnowledgePoint, kind: Kind, minutes: int, id: Option<int>) {
    t.kind == kind && t.title == kp.title && t.subject == kp.subject && t.minutes == minutes && t.kp == id
  }

  predicate FromPoints(tasks: seq<Task>, kps: seq<KnowledgePoint>, kind: Kind, minutes: int) {
    |tasks| == |kps| && forall i :: 0 <= i < |tasks| ==> FromPoint(tasks[i], kps[i], kind, minutes, Some(kps[i].id))
  }

  /** A formula is no knowledge point. */
  predicate FromFormulas(tasks: seq<Task>, fs: seq<KnowledgePoint>) {
    |tasks| == |fs| && forall i :: 0 <= i < |tasks| ==> FromPoint(tasks[i], fs[i], Formula, 5, None)
  }

  /** The title is the first 40 characters. */
  predicate FromQuestion(t: Task, question: string) {
    && t.kind == Mistake && t.subject == "" && t.minutes == 8 && t.kp == None
    && t.title <= question && |t.title| == if |question| <= 40 then |question| else 40
  }

  predicate FromQuestions(tasks: seq<Task>, questions: seq<string>) {
    |tasks| == |questions| && forall i :: 0 <= i < |tasks| ==> FromQuestion(tasks[i], questions[i])
  }

  lemma PointRows(kps: seq<KnowledgePoint>, kind: Kind, minutes: int)
    ensures FromPoints(PointTasks(kps, kind, minutes), kps, kind, minutes)
  {
  }

  lemma OtherRows(inp: Inputs)
    ensures FromFormulas(FormulaTasks(inp.formulas), inp.formulas)
    ensures FromQuestions(MistakeTasks(inp.mistakes), inp.mistakes)
  {
  }

  /** Main result on where the urgent and the new tasks come from: one for each row, in the order of the rows,
      with its minutes. */
  lemma RowsBecomeTasks(inp: Inputs)
    ensures FromPoints(OfKind(Candidates(inp), Review), inp.due, Review, 8)
    ensures FromQuestions(OfKind(Candidates(inp), Mistake), inp.mistakes)
    ensures FromFormulas(OfKind(Candidates(inp), Formula), inp.formulas)
    ensures FromPoints(OfKind(Candidates(inp), New), inp.unlearned, New, 12)
  {
    KindAlone(inp, Review);
    KindAlone(inp, Mistake);
    KindAlone(inp, Formula);
    KindAlone(inp, New);
    PointRows(inp.due, Review, 8);
    OtherRows(inp);
    PointRows(inp.unlearned, New, 12);
  }

  // ---- their order ----

  /** What comes first in the day. */
  function Place(kind: Kind): nat {
    match kind
    case Review => 0
    case Mistake => 1
    case Formula => 2
    case Weak => 3
    case New => 4
    case VocabReview => 5
    case VocabNew => 6
  }

  predicate InPlace(tasks: seq<Task>, from: nat, to: nat) {
    && (forall i :: 0 <= i < |tasks| ==> from <= Place(tasks[i].kind) <= to)
    && (forall i, j :: 0 <= i < j < |tasks| ==> Place(tasks[i].kind) <= Place(tasks[j].kind))
  }

  lemma InPlaceJoin(a: seq<Task>, b: seq<Task>, from: nat, mid: nat, mid': nat, to: nat)
    requires InPlace(a, from, mid) && InPlace(b, mid', to) && from <= mid <= mid' <= to
    ensures InPlace(a + b, from, to)
  {
  }

  /** Reviews come first, then mistakes, formulas, weak points, new points, and the vocabulary last. */
  lemma CandidateOrder(inp: Inputs)
    ensures InPlace(Candidates(inp), 0, 6)
  {
    var due, mistakes := PointTasks(inp.due, Review, 8), MistakeTasks(inp.mistakes);
    var weak, news := WeakTasks(inp.weak, 3), PointTasks(inp.unlearned, New, 12);
    WeakAreWeak(inp.weak, 3);
    InPlaceJoin(due, mistakes, 0, 0, 1, 1);
    InPlaceJoin(due + mistakes, FormulaTasks(inp.formulas), 0, 1, 2, 2);
    InPlaceJoin(weak, news, 3, 3, 4, 4);
    InPlaceJoin(Urgent(inp), weak + news, 0, 2, 3, 4);
    InPlaceJoin(Urgent(inp) + (weak + news), VocabTasks(inp), 0, 4, 5, 6);
  }

  // ---- weak points ----

  /** Learnt, and still weak. */
  predicate Drillable(row: (KnowledgePoint, int)) { 0 < row.1 < 60 }

  /** How many such rows stand before row i. */
  function Rank(ws: seq<(KnowledgePoint, int)>, i: nat): nat
    requires i <= |ws|
  {
    if i == 0 then 0 else Rank(ws, i - 1) + if Drillable(ws[i - 1]) then 1 else 0
  }

  lemma {:induction false} RankShift(ws: seq<(KnowledgePoint, int)>, i: nat)
    requires i < |ws|
    ensures Rank(ws, i + 1) == Rank(ws[1..], i) + if Drillable(ws[0]) then 1 else 0
    decreases i
  {
    if i > 0 {
      RankShift(ws, i - 1);
      assert ws[1..][i - 1] == ws[i];
    }
  }

  /** The r-th task is that of the row with r such rows before it. */
  lemma {:induction false} WeakByRank(ws: seq<(KnowledgePoint, int)>, room: nat)
    ensures |WeakTasks(ws, room)| == if Rank(ws, |ws|) < room then Rank(ws, |ws|) else room
    ensures forall i :: 0 <= i < |ws| && Drillable(ws[i]) && Rank(ws, i) < room ==>
      Rank(ws, i) < |WeakTasks(ws, room)| && IsWeakOf(WeakTasks(ws, room)[Rank(ws, i)], ws[i])
    decreases |ws|
  {
    if ws != [] {
      RankShift(ws, |ws| - 1);
      if room > 0 {
        var left := if Drillable(ws[0]) then room - 1 else room;
        WeakByRank(ws[1..], left);
        forall i | 0 <= i < |ws| && Drillable(ws[i]) && Rank(ws, i) < room
          ensures Rank(ws, i) < |WeakTasks(ws, room)|
          ensures IsWeakOf(WeakTasks(ws, room)[Rank(ws, i)], ws[i])
        {
          if i > 0 {
            RankShift(ws, i - 1);
            assert ws[1..][i - 1] == ws[i];
          }
        }
      }
    }
  }

  /** Every rank below the total is that of a row. */
  lemma {:induction false} RowOfRank(ws: seq<(KnowledgePoint, int)>, n: nat, r: nat) returns (i: nat)
    requires n <= |ws| && r < Rank(ws, n)
    ensures i < n && Drillable(ws[i]) && Rank(ws, i) == r
    decreases n
  {
    if r < Rank(ws, n - 1) {
      i := RowOfRank(ws, n - 1, r);
    } else {
      i := n - 1;
    }
  }

  /** Main result on the weak tasks: they are those of the first three rows with a mastery above 0 and below 60,
      in the order of the rows, and no others. */
  lemma WeakAreFirstThree(inp: Inputs)
    ensures var weak, ws := OfKind(Candidates(inp), Weak), inp.weak;
      && |weak| == (if Rank(ws, |ws|) < 3 then Rank(ws, |ws|) else 3)
      && (forall i :: 0 <= i < |ws| && Drillable(ws[i]) && Rank(ws, i) < 3 ==>
            Rank(ws, i) < |weak| && IsWeakOf(weak[Rank(ws, i)], ws[i]))
      && (forall t :: t in weak ==>
            exists i :: 0 <= i < |ws| && Drillable(ws[i]) && Rank(ws, i) < 3 && IsWeakOf(t, ws[i]))
  {
    KindAlone(inp, Weak);
    var ws, weak := inp.weak, WeakTasks(inp.weak, 3);
    WeakByRank(ws, 3);
    forall t | t in weak
      ensures exists i :: 0 <= i < |ws| && Drillable(ws[i]) && Rank(ws, i) < 3 && IsWeakOf(t, ws[i])
    {
      var r :| 0 <= r < |weak| && weak[r] == t;
      var i := RowOfRank(ws, |ws|, r);
      assert IsWeakOf(t, ws[i]);
    }
  }

  predicate IsWeakOf(t: Task, row: (KnowledgePoint, int)) {
    FromPoint(t, row.0, Weak, 10, Some(row.0.id))
  }

  // ---- vocabulary ----

  /** Half a minute a card for at most 20 due cards, rounded to even and two minutes at least;
      a minute a word for at most 15 new words, 20 in a sprint. */
  lemma VocabularyTimes(inp: Inputs)
    ensures var tasks := VocabTasks(inp);
      var d, n := if inp.dueCards < 20 then inp.dueCards else 20, if inp.sprint then 20 else 15;
      && |tasks| == (if inp.dueCards > 0 then 1 else 0) + (if inp.newCards > 0 then 1 else 0)
      && (inp.dueCards > 0 ==>
            && tasks[0].kind == VocabReview && tasks[0].kp == None && tasks[0].minutes >= 2
            && (d < 4 ==> tasks[0].minutes == 2)
            && (d >= 4 ==> -1 <= 2 * tasks[0].minutes - d <= 1)
            && (d >= 4 && 2 * tasks[0].minutes != d ==> tasks[0].minutes % 2 == 0))
      && (inp.newCards > 0 ==>
            var t := tasks[|tasks| - 1];
            t.kind == VocabNew && t.kp == None && t.minutes == if inp.newCards < n then inp.newCards else n)
  {
    Nearest(Min(inp.dueCards, 20), 2);
  }

  /** The vocabulary tasks come last. */
  lemma VocabularyLast(inp: Inputs)
    ensures exists front :: Candidates(inp) == front + VocabTasks(inp)
  {
    var front := Urgent(inp) + (WeakTasks(inp.weak, 3) + PointTasks(inp.unlearned, New, 12));
    assert Candidates(inp) == front + VocabTasks(inp);
  }

  // ---- what is listed ----

  /** No candidate before this one has its knowledge point. */
  predicate First(more: seq<Task>, i: nat)
    requires i < |more|
  {
    more[i].kp.Some? ==> forall j :: 0 <= j < i ==> more[j].kp != more[i].kp
  }

  lemma {:induction false} ListedSame(more: seq<Task>, id: int)
    ensures Listed(Extend([], more), id) <==> Listed(more, id)
  {
    if more != [] {
      var front, t := more[..|more| - 1], more[|more| - 1];
      assert more == front + [t];
      ListedSame(front, id);
      ListedSnoc(front, t);
      ListedSnoc(Extend([], front), t);
      if t.kp.Some? { ListedSame(front, t.kp.value); }
    }
  }

  /** The candidates listed are exactly those that are the first with their knowledge point, or have none. */
  lemma {:induction false} FirstsListed(more: seq<Task>)
    ensures Extend([], more) == Firsts(more, |more|)
  {
    if more != [] {
      var n := |more| - 1;
      var front, t := more[..n], more[n];
      assert more == front + [t];
      FirstsListed(front);
      FirstsPrefix(more, front, n);
      if t.kp.Some? {
        ListedSame(front, t.kp.value);
        assert Listed(front, t.kp.value) <==> exists j :: 0 <= j < n && more[j].kp == t.kp;
      }
    }
  }

  function Firsts(more: seq<Task>, n: nat): seq<Task>
    requires n <= |more|
  {
    if n == 0 then [] else Firsts(more, n - 1) + if First(more, n - 1) then [more[n - 1]] else []
  }

  lemma {:induction false} FirstsPrefix(more: seq<Task>, front: seq<Task>, n: nat)
    requires n <= |front| <= |more| && front == more[..|front|]
    ensures Firsts(more, n) == Firsts(front, n)
    decreases n
  {
    if n > 0 {
      FirstsPrefix(more, front, n - 1);
      assert forall j :: 0 <= j < n ==> front[j] == more[j];
    }
  }

  // ---- what is cut ----

  /** A task is kept exactly when it is of a kind that is never cut, or fits beside what was kept before it. */
  lemma KeptIffItFits(tasks: seq<Task>, i: nat, budget: int)
    requires i < |tasks|
    ensures var before, after := Trim(tasks[..i], budget).0, Trim(tasks[..i + 1], budget).0;
      var k := tasks[i].kind;
      after == if k.Review? || k.Mistake? || k.Formula? || k.VocabReview? || Total(before) + tasks[i].minutes <= budget
               then before + [tasks[i]] else before
  {
    TrimKeeps(tasks[..i], budget);
    TrimStep(tasks[..i], tasks[i], budget);
    assert tasks[..i + 1] == tasks[..i] + [tasks[i]];
  }

  /** Nothing is cut when all fits. */
  lemma {:induction false} AllFits(tasks: seq<Task>, budget: int)
    requires (forall i :: 0 <= i < |tasks| ==> tasks[i].minutes >= 0) && Total(tasks) <= budget
    ensures Trim(tasks, budget) == (tasks, Total(tasks))
  {
    if tasks != [] {
      var front, t := tasks[..|tasks| - 1], tasks[|tasks| - 1];
      assert tasks == front + [t];
      AllFits(front, budget);
    }
  }

  lemma BudgetFor()
    ensures Budget(None) == 90 && Budget(Some(0)) == 90 && forall b :: b != 0 ==> Budget(Some(b)) == b
  {
  }

  lemma {:induction false} SubsequenceIn(a: seq<Task>, b: seq<Task>)
    requires Subsequence(a, b)
    ensures forall t :: t in a ==> t in b
  {
    if a != [] && b != [] {
      var front, t := b[..|b| - 1], b[|b| - 1];
      assert b == front + [t];
      if a[|a| - 1] == t && Subsequence(a[..|a| - 1], front) {
        assert a == a[..|a| - 1] + [t];
        SubsequenceIn(a[..|a| - 1], front);
      } else {
        SubsequenceIn(a, front);
      }
    }
  }

  lemma {:induction false} KindMember(tasks: seq<Task>, t: Task)
    requires t in tasks
    ensures t in OfKind(tasks, t.kind)
  {
    var n := |tasks| - 1;
    if t in tasks[..n] {
      KindMember(tasks[..n], t);
    } else {
      assert tasks[n] == t;
    }
  }

  /** Every weak task of the final plan drills one of the first three points with a mastery above 0 and below 60. */
  lemma WeakKept(inp: Inputs, requested: Option<int>, t: Task)
    requires t in Trim(Extend([], Candidates(inp)), Budget(requested)).0 && t.kind.Weak?
    ensures exists i ::
      0 <= i < |inp.weak| && Drillable(inp.weak[i]) && Rank(inp.weak, i) < 3 && IsWeakOf(t, inp.weak[i])
  {
    var all := Extend([], Candidates(inp));
    TrimKeeps(all, Budget(requested));
    SubsequenceIn(Trim(all, Budget(requested)).0, all);
    ExtendSubsequence(Candidates(inp));
    SubsequenceIn(all, Candidates(inp));
    KindMember(Candidates(inp), t);
    WeakAreFirstThree(inp);
  }

  // ---- the totals ----

  function Places(tasks: seq<Task>, kinds: set<Kind>): set<int> {
    set i | 0 <= i < |tasks| && tasks[i].kind in kinds
  }

  lemma {:induction false} CountIs(tasks: seq<Task>, group: Kind -> bool, kinds: set<Kind>)
    requires forall k :: group(k) <==> k in kinds
    ensures Count(tasks, group) == |Places(tasks, kinds)|
  {
    if tasks == [] {
      assert Places(tasks, kinds) == {};
    } else {
      var n := |tasks| - 1;
      CountIs(tasks[..n], group, kinds);
      var before := Places(tasks[..n], kinds);
      assert Places(tasks, kinds) == if group(tasks[n].kind) then before + {n} else before;
    }
  }

  /** The totals count the tasks by what they are for. */
  lemma TotalsCount(tasks: seq<Task>, minutes: int)
    ensures var t := TotalsOf(tasks, minutes);
      && t.review == |Places(tasks, {Review, Formula, Mistake, VocabReview})|
      && t.weak == |Places(tasks, {Weak})|
      && t.newTasks == |Places(tasks, {New, VocabNew})|
      && t.minutes == minutes
  {
    CountIs(tasks, IsReview, {Review, Formula, Mistake, VocabReview});
    CountIs(tasks, IsWeak, {Weak});
    CountIs(tasks, IsNew, {New, VocabNew});
  }
}
