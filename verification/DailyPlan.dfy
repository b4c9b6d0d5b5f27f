/** Today's study plan: tasks collected by priority without repeating a knowledge point,
    then cut to the minutes at hand. */
module DailyPlan {
  import opened Prelude
  import opened Rounding

  datatype Kind = Review | Mistake | Formula | Weak | New | VocabReview | VocabNew {
    /** These are never cut. */
    predicate KeepAlways() { Review? || Mistake? || Formula? || VocabReview? }
  }

  datatype Task = Task(kind: Kind, title: string, subject: string, minutes: int, kp: Option<int>)

  datatype KnowledgePoint = KnowledgePoint(id: int, title: string, subject: string)

  /** What the queries return. `mastery` is already rounded; a failing query or step cuts its list short. */
  datatype Inputs = Inputs(
    due: seq<KnowledgePoint>,
    mistakes: seq<string>,
    formulas: seq<KnowledgePoint>,
    weak: seq<(KnowledgePoint, int)>,
    unlearned: seq<KnowledgePoint>,
    dueCards: nat,
    newCards: nat,
    sprint: bool)

  // ---- candidates, in the order they are offered ----

  function PointTasks(kps: seq<KnowledgePoint>, kind: Kind, minutes: int): seq<Task> {
    seq(|kps|, i requires 0 <= i < |kps| => Task(kind, kps[i].title, kps[i].subject, minutes, Some(kps[i].id)))
  }

  function MistakeTasks(questions: seq<string>): seq<Task> {
    seq(|questions|, i requires 0 <= i < |questions| =>
      Task(Mistake, questions[i][..Min(40, |questions[i]|)], "", 8, None))
  }

  function FormulaTasks(fs: seq<KnowledgePoint>): seq<Task> {
    seq(|fs|, i requires 0 <= i < |fs| => Task(Formula, fs[i].title, fs[i].subject, 5, None))
  }

  /** The first three points that have been learnt and are still weak. */
  function WeakTasks(ws: seq<(KnowledgePoint, int)>, room: nat): seq<Task> {
    if ws == [] || room == 0 then []
    else if ws[0].1 <= 0 || ws[0].1 >= 60 then WeakTasks(ws[1..], room)
    else [Task(Weak, ws[0].0.title, ws[0].0.subject, 10, Some(ws[0].0.id))] + WeakTasks(ws[1..], room - 1)
  }

  function VocabTasks(inp: Inputs): seq<Task> {
    var d, n := Min(inp.dueCards, 20), Min(inp.newCards, if inp.sprint then 20 else 15);
    (if inp.dueCards > 0 then [Task(VocabReview, "", "", Max(2, RoundHalfEven(d, 2)), None)] else []) +
    (if inp.newCards > 0 then [Task(VocabNew, "", "", n, None)] else [])
  }

  function Urgent(inp: Inputs): seq<Task> {
    PointTasks(inp.due, Review, 8) + MistakeTasks(inp.mistakes) + FormulaTasks(inp.formulas)
  }

  function Candidates(inp: Inputs): seq<Task> {
    Urgent(inp) + (WeakTasks(inp.weak, 3) + PointTasks(inp.unlearned, New, 12)) + VocabTasks(inp)
  }

  // ---- no knowledge point twice ----

  predicate Listed(tasks: seq<Task>, id: int) {
    exists i :: 0 <= i < |tasks| && tasks[i].kp == Some(id)
  }

  /** Candidates added in order; one whose knowledge point is listed already is skipped. */
  function Extend(tasks: seq<Task>, more: seq<Task>): seq<Task> {
    if more == [] then tasks else
    var before, t := Extend(tasks, more[..|more| - 1]), more[|more| - 1];
    if t.kp.Some? && Listed(before, t.kp.value) then before else before + [t]
  }

  // ---- the cut ----

  function Total(tasks: seq<Task>): int {
    if tasks == [] then 0 else Total(tasks[..|tasks| - 1]) + tasks[|tasks| - 1].minutes
  }

  function Trim(tasks: seq<Task>, budget: int): (seq<Task>, int) {
    if tasks == [] then ([], 0) else
    var (kept, used) := Trim(tasks[..|tasks| - 1], budget);
    var t := tasks[|tasks| - 1];
    if used + t.minutes <= budget || t.kind.KeepAlways() then (kept + [t], used + t.minutes) else (kept, used)
  }

  // ---- the totals ----

  predicate IsReview(k: Kind) { k.Review? || k.Formula? || k.Mistake? || k.VocabReview? }
  predicate IsWeak(k: Kind) { k.Weak? }
  predicate IsNew(k: Kind) { k.New? || k.VocabNew? }

  datatype Totals = Totals(review: nat, weak: nat, newTasks: nat, minutes: int)

  function Count(tasks: seq<Task>, group: Kind -> bool): nat {
    if tasks == [] then 0 else
    var n := |tasks| - 1;
    Count(tasks[..n], group) + if group(tasks[n].kind) then 1 else 0
  }

  function TotalsOf(tasks: seq<Task>, minutes: int): Totals {
    Totals(Count(tasks, IsReview), Count(tasks, IsWeak), Count(tasks, IsNew), minutes)
  }

  /** The three counts are of all the tasks, and the first is of those that are never cut. */
  lemma {:induction false} CountsAddUp(tasks: seq<Task>)
    ensures var t := TotalsOf(tasks, 0);
      t.review + t.weak + t.newTasks == |tasks| && t.review == |Always(tasks)|
  {
    if tasks != [] {
      CountsAddUp(tasks[..|tasks| - 1]);
    }
  }

  function Budget(requested: Option<int>): int {
    if requested.Some? && requested.value != 0 then requested.value else 90
  }

  class Planner {
    var tasks: seq<Task>
    var seenKp: set<int>

    ghost predicate Valid()
      reads this
    {
      forall id :: id in seenKp <==> Listed(tasks, id)
    }

    constructor ()
      ensures Valid() && tasks == []
    {
      tasks, seenKp := [], {};
    }

    method Add(t: Task)
      requires Valid()
      modifies this
      ensures Valid() && tasks == Extend(old(tasks), [t])
    {
      assert [t][..0] == [];
      if t.kp.Some? {
        if t.kp.value in seenKp {
          return;
        }
        seenKp := seenKp + {t.kp.value};
      }
      ListedSnoc(tasks, t);
      tasks := tasks + [t];
    }

    method AddAll(more: seq<Task>)
      requires Valid()
      modifies this
      ensures Valid() && tasks == Extend(old(tasks), more)
    {
      for i := 0 to |more|
        invariant Valid() && tasks == Extend(old(tasks), more[..i])
      {
        assert more[..i + 1] == more[..i] + [more[i]];
        ExtendConcat(old(tasks), more[..i], [more[i]]);
        Add(more[i]);
      }
      assert more[..|more|] == more;
    }

    /** At most three, and only points with 0 < mastery < 60. */
    method AddWeak(ws: seq<(KnowledgePoint, int)>)
      requires Valid()
      modifies this
      ensures Valid() && tasks == Extend(old(tasks), WeakTasks(ws, 3))
    {
      var count := 0;
      for i := 0 to |ws|
        invariant Valid() && 0 <= count < 3
        invariant Extend(old(tasks), WeakTasks(ws, 3)) == Extend(tasks, WeakTasks(ws[i..], 3 - count))
      {
        assert ws[i..][1..] == ws[i + 1..];
        var (kp, mastery) := ws[i];
        if mastery <= 0 || mastery >= 60 {
          continue;
        }
        var t := Task(Weak, kp.title, kp.subject, 10, Some(kp.id));
        ExtendConcat(tasks, [t], WeakTasks(ws[i + 1..], 3 - count - 1));
        Add(t);
        count := count + 1;
        if count >= 3 {
          return;
        }
      }
    }

    method ComputeToday(inp: Inputs, requested: Option<int>) returns (kept: seq<Task>, totals: Totals)
      requires Valid() && tasks == []
      modifies this
      ensures (kept, totals.minutes) == Trim(Extend([], Candidates(inp)), Budget(requested))
      ensures totals == TotalsOf(kept, totals.minutes)
    {
      AddAll(Urgent(inp));
      AddWeak(inp.weak);
      AddAll(PointTasks(inp.unlearned, New, 12));
      AddAll(VocabTasks(inp));
      InOrder(inp);
      var used;
      kept, used := CutTo(tasks, Budget(requested));
      totals := CountTotals(kept, used);
    }
  }

  /** One pass for each of the three counts. */
  method CountTotals(tasks: seq<Task>, used: int) returns (totals: Totals)
    ensures totals == TotalsOf(tasks, used)
  {
    var review := CountOf(tasks, IsReview);
    var weak := CountOf(tasks, IsWeak);
    var newTasks := CountOf(tasks, IsNew);
    totals := Totals(review, weak, newTasks, used);
  }

  method CountOf(tasks: seq<Task>, group: Kind -> bool) returns (n: nat)
    ensures n == Count(tasks, group)
  {
    n := 0;
    for i := 0 to |tasks|
      invariant n == Count(tasks[..i], group)
    {
      assert tasks[..i + 1][..i] == tasks[..i];
      if group(tasks[i].kind) {
        n := n + 1;
      }
    }
    assert tasks[..|tasks|] == tasks;
  }

  method CutTo(tasks: seq<Task>, budget: int) returns (kept: seq<Task>, used: int)
    ensures (kept, used) == Trim(tasks, budget)
  {
    kept, used := [], 0;
    for i := 0 to |tasks|
      invariant (kept, used) == Trim(tasks[..i], budget)
    {
      assert tasks[..i + 1][..i] == tasks[..i];
      var t := tasks[i];
      if used + t.minutes <= budget || t.kind.KeepAlways() {
        kept := kept + [t];
        used := used + t.minutes;
      }
    }
    assert tasks[..|tasks|] == tasks;
  }

  lemma ListedSnoc(tasks: seq<Task>, t: Task)
    ensures forall id :: Listed(tasks + [t], id) <==> Listed(tasks, id) || t.kp == Some(id)
  {
    var more := tasks + [t];
    assert more[|tasks|] == t;
    forall id | Listed(tasks, id) ensures Listed(more, id) {
      var i :| 0 <= i < |tasks| && tasks[i].kp == Some(id);
      assert more[i].kp == Some(id);
    }
  }

  lemma {:induction false} ExtendConcat(tasks: seq<Task>, a: seq<Task>, b: seq<Task>)
    ensures Extend(tasks, a + b) == Extend(Extend(tasks, a), b)
  {
    if b == [] {
      assert a + b == a;
    } else {
      ExtendConcat(tasks, a, b[..|b| - 1]);
      assert (a + b)[..|a + b| - 1] == a + b[..|b| - 1];
    }
  }

  lemma InOrder(inp: Inputs)
    ensures Extend([], Candidates(inp)) ==
            var weak := Extend(Extend([], Urgent(inp)), WeakTasks(inp.weak, 3));
            Extend(Extend(weak, PointTasks(inp.unlearned, New, 12)), VocabTasks(inp))
  {
    var a, b, c, d := Urgent(inp), WeakTasks(inp.weak, 3), PointTasks(inp.unlearned, New, 12), VocabTasks(inp);
    ExtendConcat([], a + (b + c), d);
    ExtendConcat([], a, b + c);
    ExtendConcat(Extend([], a), b, c);
  }

  // ---- what the plan keeps ----

  predicate NoPointTwice(tasks: seq<Task>) {
    forall i, j :: 0 <= i < j < |tasks| && tasks[i].kp.Some? ==> tasks[i].kp != tasks[j].kp
  }

  lemma {:induction false} ExtendNoRepeats(tasks: seq<Task>, more: seq<Task>)
    requires NoPointTwice(tasks)
    ensures NoPointTwice(Extend(tasks, more))
  {
    if more != [] {
      ExtendNoRepeats(tasks, more[..|more| - 1]);
    }
  }

  /** a can be had from b by leaving some elements out. */
  predicate Subsequence(a: seq<Task>, b: seq<Task>) {
    if a == [] then true
    else if b == [] then false
    else if a[|a| - 1] == b[|b| - 1] && Subsequence(a[..|a| - 1], b[..|b| - 1]) then true
    else Subsequence(a, b[..|b| - 1])
  }

  lemma {:induction false} SubsequenceSnoc(a: seq<Task>, b: seq<Task>, x: Task)
    requires Subsequence(a, b)
    ensures Subsequence(a + [x], b + [x]) && Subsequence(a, b + [x])
  {
    assert (a + [x])[..|a|] == a && (b + [x])[..|b|] == b;
  }

  lemma {:induction false} ExtendSubsequence(more: seq<Task>)
    ensures Subsequence(Extend([], more), more)
  {
    if more != [] {
      var n := |more| - 1;
      ExtendSubsequence(more[..n]);
      SubsequenceSnoc(Extend([], more[..n]), more[..n], more[n]);
      assert more == more[..n] + [more[n]];
    }
  }

  function Always(tasks: seq<Task>): seq<Task> {
    if tasks == [] then [] else
    var n := |tasks| - 1;
    if tasks[n].kind.KeepAlways() then Always(tasks[..n]) + [tasks[n]] else Always(tasks[..n])
  }

  lemma TrimStep(tasks: seq<Task>, t: Task, budget: int)
    ensures var (kept, used) := Trim(tasks, budget);
      Trim(tasks + [t], budget) ==
      if used + t.minutes <= budget || t.kind.KeepAlways() then (kept + [t], used + t.minutes) else (kept, used)
  {
    assert (tasks + [t])[..|tasks|] == tasks;
  }

  lemma AlwaysSnoc(tasks: seq<Task>, t: Task)
    ensures Always(tasks + [t]) == if t.kind.KeepAlways() then Always(tasks) + [t] else Always(tasks)
    ensures Total(tasks + [t]) == Total(tasks) + t.minutes
  {
    assert (tasks + [t])[..|tasks|] == tasks;
  }

  /** The cut keeps the order, keeps every task that is never cut, and reports the minutes it kept. */
  lemma {:induction false} TrimKeeps(tasks: seq<Task>, budget: int)
    ensures Subsequence(Trim(tasks, budget).0, tasks)
    ensures Always(Trim(tasks, budget).0) == Always(tasks)
    ensures Trim(tasks, budget).1 == Total(Trim(tasks, budget).0)
  {
    if tasks != [] {
      var n := |tasks| - 1;
      var front, t := tasks[..n], tasks[n];
      assert tasks == front + [t];
      var kept := Trim(front, budget).0;
      TrimKeeps(front, budget);
      TrimStep(front, t, budget);
      SubsequenceSnoc(kept, front, t);
      AlwaysSnoc(kept, t);
      AlwaysSnoc(front, t);
    }
  }

  lemma {:induction false} TrimWithoutRepeats(tasks: seq<Task>, budget: int)
    requires NoPointTwice(tasks)
    ensures NoPointTwice(Trim(tasks, budget).0)
    ensures forall id :: Listed(Trim(tasks, budget).0, id) ==> Listed(tasks, id)
  {
    if tasks != [] {
      var n := |tasks| - 1;
      TrimWithoutRepeats(tasks[..n], budget);
      ListedSnoc(tasks[..n], tasks[n]);
      ListedSnoc(Trim(tasks[..n], budget).0, tasks[n]);
      assert tasks == tasks[..n] + [tasks[n]];
      assert tasks[n].kp.Some? ==> !Listed(tasks[..n], tasks[n].kp.value);
      if tasks[n].kp.Some? {
        NotListedSnoc(Trim(tasks[..n], budget).0, tasks[n]);
      }
    }
  }

  lemma NotListedSnoc(tasks: seq<Task>, t: Task)
    requires NoPointTwice(tasks) && t.kp.Some? && !Listed(tasks, t.kp.value)
    ensures NoPointTwice(tasks + [t])
  {
  }

  // ---- how long the plan can get ----

  lemma {:induction false} ExtendTotal(tasks: seq<Task>, more: seq<Task>)
    requires forall i :: 0 <= i < |more| ==> more[i].minutes >= 0
    ensures Total(Extend(tasks, more)) <= Total(tasks) + Total(more)
  {
    if more != [] {
      var n := |more| - 1;
      ExtendTotal(tasks, more[..n]);
      AlwaysSnoc(Extend(tasks, more[..n]), more[n]);
    }
  }

  /** Adding candidates appends a selection of them. */
  lemma {:induction false} ExtendAppends(tasks: seq<Task>, more: seq<Task>) returns (added: seq<Task>)
    ensures Extend(tasks, more) == tasks + added && |added| <= |more|
    ensures forall i :: 0 <= i < |added| ==> added[i] in more
  {
    if more == [] {
      added := [];
      assert tasks + [] == tasks;
    } else {
      var n := |more| - 1;
      var before := ExtendAppends(tasks, more[..n]);
      if Extend(tasks, more) == Extend(tasks, more[..n]) {
        added := before;
      } else {
        added := before + [more[n]];
        Reassociate(tasks, before, [more[n]]);
      }
    }
  }

  lemma {:induction false} TrimWithin(tasks: seq<Task>, more: seq<Task>, budget: int, bound: int)
    requires Trim(tasks, budget).1 <= bound && budget <= bound
    requires forall i :: 0 <= i < |more| ==> !more[i].kind.KeepAlways()
    ensures Trim(tasks + more, budget).1 <= bound
  {
    if more == [] {
      assert tasks + more == tasks;
    } else {
      var n := |more| - 1;
      TrimWithin(tasks, more[..n], budget, bound);
      assert (tasks + more)[..|tasks| + n] == tasks + more[..n];
    }
  }

  lemma {:induction false} TrimAtMost(tasks: seq<Task>, budget: int)
    requires forall i :: 0 <= i < |tasks| ==> tasks[i].minutes >= 0
    ensures Trim(tasks, budget).1 <= Total(tasks)
  {
    if tasks != [] {
      TrimAtMost(tasks[..|tasks| - 1], budget);
    }
  }

  lemma {:induction false} TotalAtMost(tasks: seq<Task>, each: int)
    requires forall i :: 0 <= i < |tasks| ==> tasks[i].minutes <= each
    ensures Total(tasks) <= each * |tasks|
  {
    if tasks != [] {
      TotalAtMost(tasks[..|tasks| - 1], each);
      assert each * |tasks| == each * (|tasks| - 1) + each;
    }
  }

  lemma {:induction false} TotalConcat(a: seq<Task>, b: seq<Task>)
    ensures Total(a + b) == Total(a) + Total(b)
  {
    if b == [] {
      assert a + b == a;
    } else {
      TotalConcat(a, b[..|b| - 1]);
      assert (a + b)[..|a + b| - 1] == a + b[..|b| - 1];
    }
  }

  /** The limits the queries are made with. */
  predicate WithinLimits(inp: Inputs) {
    |inp.due| <= 6 && |inp.mistakes| <= 4 && |inp.formulas| <= 5
  }

  lemma UrgentTotal(inp: Inputs)
    requires WithinLimits(inp)
    ensures Total(Urgent(inp)) <= 105
  {
    var a, b, c := PointTasks(inp.due, Review, 8), MistakeTasks(inp.mistakes), FormulaTasks(inp.formulas);
    TotalConcat(a + b, c);
    TotalConcat(a, b);
    TotalAtMost(a, 8);
    TotalAtMost(b, 8);
    TotalAtMost(c, 5);
  }

  lemma {:induction false} WeakAreWeak(ws: seq<(KnowledgePoint, int)>, room: nat)
    ensures forall i :: 0 <= i < |WeakTasks(ws, room)| ==> WeakTasks(ws, room)[i].kind.Weak?
    ensures |WeakTasks(ws, room)| <= room
    decreases |ws|
  {
    if ws != [] && room > 0 {
      WeakAreWeak(ws[1..], room);
      WeakAreWeak(ws[1..], room - 1);
    }
  }

  /** The vocabulary tasks add at most ten minutes past the bound: only the review is never cut. */
  lemma VocabBound(tasks: seq<Task>, inp: Inputs, budget: int, bound: int)
    requires Trim(tasks, budget).1 <= bound && budget <= bound
    ensures Trim(tasks + VocabTasks(inp), budget).1 <= bound + 10
  {
    var d, n := Min(inp.dueCards, 20), Min(inp.newCards, if inp.sprint then 20 else 15);
    var review := if inp.dueCards > 0 then [Task(VocabReview, "", "", Max(2, RoundHalfEven(d, 2)), None)] else [];
    var words := if inp.newCards > 0 then [Task(VocabNew, "", "", n, None)] else [];
    assert VocabTasks(inp) == review + words;
    Reassociate(tasks, review, words);
    Monotone(d, 20, 2);
    assert tasks + [] == tasks;
    if review != [] {
      TrimStep(tasks, review[0], budget);
    }
    assert (tasks + review) + [] == tasks + review;
    if words != [] {
      TrimStep(tasks + review, words[0], budget);
    }
  }

  lemma {:induction false} UnlistedAppends(tasks: seq<Task>, more: seq<Task>)
    requires forall i :: 0 <= i < |more| ==> more[i].kp.None?
    ensures Extend(tasks, more) == tasks + more
  {
    if more == [] {
      assert tasks + more == tasks;
    } else {
      var front, last := more[..|more| - 1], [more[|more| - 1]];
      UnlistedAppends(tasks, front);
      Reassociate(tasks, front, last);
      assert more == front + last;
    }
  }

  /** Main result: no knowledge point twice, nothing urgent lost, the minutes add up, and they stay within
      the budget or the 105 minutes of urgent work, plus at most ten of vocabulary review. */
  lemma TodayIsBounded(inp: Inputs, requested: Option<int>)
    requires WithinLimits(inp)
    ensures var all := Extend([], Candidates(inp));
      var (kept, used) := Trim(all, Budget(requested));
      && Subsequence(all, Candidates(inp)) && Subsequence(kept, all)
      && NoPointTwice(kept) && Always(kept) == Always(all)
      && used == Total(kept) <= Max(Budget(requested), 105) + 10
  {
    var all, budget := Extend([], Candidates(inp)), Budget(requested);
    ExtendSubsequence(Candidates(inp));
    ExtendNoRepeats([], Candidates(inp));
    TrimKeeps(all, budget);
    TrimWithoutRepeats(all, budget);
    UsedBound(inp, budget);
  }

  lemma UrgentPhase(inp: Inputs, budget: int)
    requires WithinLimits(inp)
    ensures Trim(Extend([], Urgent(inp)), budget).1 <= 105
  {
    var chosen := ExtendAppends([], Urgent(inp));
    assert Extend([], Urgent(inp)) == chosen;
    UrgentTotal(inp);
    ExtendTotal([], Urgent(inp));
    TrimAtMost(chosen, budget);
  }

  lemma OptionalPhase(inp: Inputs, tasks: seq<Task>, budget: int, bound: int)
    requires Trim(tasks, budget).1 <= bound && budget <= bound
    ensures Trim(Extend(tasks, WeakTasks(inp.weak, 3) + PointTasks(inp.unlearned, New, 12)), budget).1 <= bound
  {
    var optional := WeakTasks(inp.weak, 3) + PointTasks(inp.unlearned, New, 12);
    WeakAreWeak(inp.weak, 3);
    assert forall i :: 0 <= i < |optional| ==> !optional[i].kind.KeepAlways();
    var added := ExtendAppends(tasks, optional);
    TrimWithin(tasks, added, budget, bound);
  }

  lemma VocabPhase(inp: Inputs, tasks: seq<Task>, budget: int, bound: int)
    requires Trim(tasks, budget).1 <= bound && budget <= bound
    ensures Trim(Extend(tasks, VocabTasks(inp)), budget).1 <= bound + 10
  {
    UnlistedAppends(tasks, VocabTasks(inp));
    VocabBound(tasks, inp, budget, bound);
  }

  lemma UsedBound(inp: Inputs, budget: int)
    requires WithinLimits(inp)
    ensures Trim(Extend([], Candidates(inp)), budget).1 <= Max(budget, 105) + 10
  {
    var bound := Max(budget, 105);
    var optional := WeakTasks(inp.weak, 3) + PointTasks(inp.unlearned, New, 12);
    UrgentPhase(inp, budget);
    OptionalPhase(inp, Extend([], Urgent(inp)), budget, bound);
    VocabPhase(inp, Extend(Extend([], Urgent(inp)), optional), budget, bound);
    ExtendConcat([], Urgent(inp), optional);
    ExtendConcat([], Urgent(inp) + optional, VocabTasks(inp));
  }

  // ---- nothing urgent is lost ----

  predicate DistinctPoints(kps: seq<KnowledgePoint>) {
    forall i, j :: 0 <= i < j < |kps| ==> kps[i].id != kps[j].id
  }

  lemma LastUnlisted(front: seq<Task>, t: Task)
    requires NoPointTwice(front + [t])
    ensures NoPointTwice(front) && (t.kp.Some? ==> !Listed(front, t.kp.value))
  {
    var all := front + [t];
    assert all[|front|] == t;
    assert forall i :: 0 <= i < |front| ==> all[i] == front[i];
  }

  lemma {:induction false} DistinctAppends(more: seq<Task>)
    requires NoPointTwice(more)
    ensures Extend([], more) == more
  {
    if more != [] {
      var front, t := more[..|more| - 1], more[|more| - 1];
      assert more == front + [t];
      LastUnlisted(front, t);
      DistinctAppends(front);
    }
  }

  lemma {:induction false} AlwaysConcat(a: seq<Task>, b: seq<Task>)
    ensures Always(a + b) == Always(a) + Always(b)
  {
    if b == [] {
      assert a + b == a;
    } else {
      var front, t := b[..|b| - 1], b[|b| - 1];
      AlwaysConcat(a, front);
      AlwaysSnoc(a + front, t);
      Reassociate(a, front, [t]);
      Reassociate(Always(a), Always(front), [t]);
      assert b == front + [t];
    }
  }

  lemma {:induction false} AlwaysAll(tasks: seq<Task>, all: bool)
    requires forall i :: 0 <= i < |tasks| ==> tasks[i].kind.KeepAlways() == all
    ensures Always(tasks) == if all then tasks else []
  {
    if tasks != [] {
      AlwaysAll(tasks[..|tasks| - 1], all);
      assert tasks == tasks[..|tasks| - 1] + [tasks[|tasks| - 1]];
    }
  }

  lemma AlwaysOfAll(inp: Inputs)
    requires DistinctPoints(inp.due)
    ensures Always(Extend([], Candidates(inp))) == Urgent(inp) + Always(VocabTasks(inp))
  {
    OptionalKinds(inp);
    UrgentKinds(inp);
    AlwaysOfThree(Urgent(inp), WeakTasks(inp.weak, 3) + PointTasks(inp.unlearned, New, 12), VocabTasks(inp));
  }

  lemma AlwaysOfThree(urgent: seq<Task>, optional: seq<Task>, vocab: seq<Task>)
    requires NoPointTwice(urgent) && forall i :: 0 <= i < |urgent| ==> urgent[i].kind.KeepAlways()
    requires forall t :: t in optional ==> !t.kind.KeepAlways()
    requires forall i :: 0 <= i < |vocab| ==> vocab[i].kp.None?
    ensures Always(Extend([], urgent + optional + vocab)) == urgent + Always(vocab)
  {
    DistinctAppends(urgent);
    ExtendConcat([], urgent, optional);
    ExtendConcat([], urgent + optional, vocab);
    var added := ExtendAppends(urgent, optional);
    UnlistedAppends(urgent + added, vocab);
    AlwaysParts(urgent, added, vocab);
  }

  lemma UrgentKinds(inp: Inputs)
    requires DistinctPoints(inp.due)
    ensures NoPointTwice(Urgent(inp)) && forall i :: 0 <= i < |Urgent(inp)| ==> Urgent(inp)[i].kind.KeepAlways()
  {
  }

  lemma OptionalKinds(inp: Inputs)
    ensures forall t :: t in WeakTasks(inp.weak, 3) + PointTasks(inp.unlearned, New, 12) ==> !t.kind.KeepAlways()
  {
    WeakAreWeak(inp.weak, 3);
  }

  lemma AlwaysParts(urgent: seq<Task>, added: seq<Task>, vocab: seq<Task>)
    requires forall i :: 0 <= i < |urgent| ==> urgent[i].kind.KeepAlways()
    requires forall i :: 0 <= i < |added| ==> !added[i].kind.KeepAlways()
    ensures Always(urgent + added + vocab) == urgent + Always(vocab)
  {
    AlwaysAll(urgent, true);
    AlwaysAll(added, false);
    AlwaysConcat(urgent, added);
    AlwaysConcat(urgent + added, vocab);
    assert urgent + [] == urgent;
  }

  /** Every due review, mistake, formula and vocabulary review is in the plan, in order. */
  lemma UrgentSurvives(inp: Inputs, requested: Option<int>)
    requires DistinctPoints(inp.due)
    ensures Always(Trim(Extend([], Candidates(inp)), Budget(requested)).0) == Urgent(inp) + Always(VocabTasks(inp))
  {
    AlwaysOfAll(inp);
    TrimKeeps(Extend([], Candidates(inp)), Budget(requested));
  }
}
