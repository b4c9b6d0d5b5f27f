/** The execution order of a plan: a Kahn queue over two dependency views, then whatever is left, in plan order.
    `dependencies` is read as blocked task to blockers, as `get_execution_order` reads it. */
module PlanOrder {
  import opened Prelude
  import opened PlanArtifacts

  // ---- the algorithm on values ----

  /** The distinct task ids, in order of first appearance. */
  function Ids(tasks: seq<Task>): seq<string> {
    if tasks == [] then [] else
    var n := |tasks| - 1;
    var ids := Ids(tasks[..n]);
    if tasks[n].id in ids then ids else ids + [tasks[n].id]
  }

  lemma {:induction false} IdsDistinct(tasks: seq<Task>)
    ensures NoRepeats(Ids(tasks))
  {
    if tasks != [] {
      IdsDistinct(tasks[..|tasks| - 1]);
    }
  }

  function CountIn(deps: seq<string>, ids: set<string>): nat {
    if deps == [] then 0 else
    var n := |deps| - 1;
    CountIn(deps[..n], ids) + if deps[n] in ids then 1 else 0
  }

  function Zeros(tasks: seq<Task>): map<string, int> {
    map x | x in Ids(tasks) :: 0
  }

  /** One more for each dependency of the task that is in the plan. */
  function AddTask(d: map<string, int>, t: Task): (e: map<string, int>)
    requires t.id in d
    ensures e.Keys == d.Keys
  {
    d[t.id := d[t.id] + CountIn(t.dependsOn, d.Keys)]
  }

  /** In-degrees after the first k tasks. */
  function Degrees(tasks: seq<Task>, k: nat): (d: map<string, int>)
    requires k <= |tasks|
    ensures d.Keys == Zeros(tasks).Keys
  {
    if k == 0 then Zeros(tasks) else
    TaskInIds(tasks, k - 1);
    AddTask(Degrees(tasks, k - 1), tasks[k - 1])
  }

  lemma {:induction false} TaskInIds(tasks: seq<Task>, k: nat)
    requires k < |tasks|
    ensures tasks[k].id in Ids(tasks)
  {
    if k < |tasks| - 1 {
      TaskInIds(tasks[..|tasks| - 1], k);
    }
  }

  function ZeroIds(ids: seq<string>, d: map<string, int>): seq<string>
    requires forall x :: x in ids ==> x in d
  {
    if ids == [] then [] else
    var n := |ids| - 1;
    if d[ids[n]] == 0 then ZeroIds(ids[..n], d) + [ids[n]] else ZeroIds(ids[..n], d)
  }

  /** `current` is done: every task it blocks loses one in-degree, and joins the queue on reaching zero. */
  function Relax(deps: seq<Entry>, current: string, d: map<string, int>, queue: seq<string>)
    : (map<string, int>, seq<string>)
  {
    if deps == [] then (d, queue) else
    var (d1, q1) := Relax(deps[..|deps| - 1], current, d, queue);
    var (blocked, blockers) := deps[|deps| - 1];
    if current in blockers && blocked in d1 then
      (d1[blocked := d1[blocked] - 1], if d1[blocked] - 1 == 0 then q1 + [blocked] else q1)
    else (d1, q1)
  }

  /** A task is queued or done exactly when its in-degree has come down to zero; none is queued twice. */
  predicate Kahn(d: map<string, int>, queue: seq<string>, order: seq<string>) {
    && NoRepeats(order + queue)
    && (forall x :: x in order + queue ==> x in d)
    && (forall x :: x in d ==> (x in order + queue <==> d[x] <= 0))
  }

  predicate Blocks(deps: seq<Entry>, current: string, blocked: string) {
    exists i :: 0 <= i < |deps| && deps[i].0 == blocked && current in deps[i].1
  }

  lemma BlocksSnoc(deps: seq<Entry>, current: string, x: string)
    requires deps != [] && DistinctKeys(deps)
    ensures var n := |deps| - 1;
      Blocks(deps, current, x) <==> if deps[n].0 == x then current in deps[n].1 else Blocks(deps[..n], current, x)
    ensures !Blocks(deps[..|deps| - 1], current, deps[|deps| - 1].0)
  {
    var n := |deps| - 1;
    if Blocks(deps[..n], current, x) {
      var i :| 0 <= i < n && deps[..n][i].0 == x && current in deps[..n][i].1;
      assert deps[i].0 == x && current in deps[i].1;
    }
    if Blocks(deps, current, x) && deps[n].0 != x {
      var i :| 0 <= i < |deps| && deps[i].0 == x && current in deps[i].1;
      assert deps[..n][i] == deps[i];
    }
  }

  /** What one relaxation does to the degrees and the queue. */
  lemma {:induction false} Relaxed(deps: seq<Entry>, current: string, d: map<string, int>, queue: seq<string>)
    requires DistinctKeys(deps)
    ensures var (e, q) := Relax(deps, current, d, queue);
      && e.Keys == d.Keys
      && (forall x :: x in d ==> e[x] == d[x] - if Blocks(deps, current, x) then 1 else 0)
      && queue <= q && NoRepeats(q[|queue|..])
      && (forall x :: x in q[|queue|..] <==> x in d && Blocks(deps, current, x) && d[x] == 1)
  {
    if deps != [] {
      var n := |deps| - 1;
      var (e, q) := Relax(deps[..n], current, d, queue);
      Relaxed(deps[..n], current, d, queue);
      forall x | x in d { BlocksSnoc(deps, current, x); }
      var (b, bs) := deps[n];
      assert (q + [b])[|queue|..] == q[|queue|..] + [b];
    }
  }

  lemma KahnStep(deps: seq<Entry>, d: map<string, int>, queue: seq<string>, order: seq<string>)
    requires DistinctKeys(deps) && Kahn(d, queue, order) && queue != []
    ensures var (e, q) := Relax(deps, queue[0], d, queue[1..]);
      Kahn(e, q, order + [queue[0]])
  {
    var c, rest := queue[0], queue[1..];
    var (e, q) := Relax(deps, c, d, rest);
    Relaxed(deps, c, d, rest);
    var old_all, added := order + queue, q[|rest|..];
    var all := order + [c] + q;
    assert all == old_all + added;
    forall x | x in d
      ensures x in all <==> e[x] <= 0
    {
      assert x in all <==> x in old_all || x in added;
    }
    DistinctJoin(old_all, added);
  }

  lemma DistinctJoin(a: seq<string>, b: seq<string>)
    requires NoRepeats(a) && NoRepeats(b) && forall x :: x in b ==> x !in a
    ensures NoRepeats(a + b)
  {
    forall i, j | 0 <= i < j < |a + b|
      ensures (a + b)[i] != (a + b)[j]
    {
      if i < |a| <= j {
        assert b[j - |a|] in b && a[i] in a;
      }
    }
  }

  lemma {:induction false} DistinctCount(s: seq<string>, bound: set<string>)
    requires NoRepeats(s) && forall x :: x in s ==> x in bound
    ensures |s| <= |bound|
  {
    if s != [] {
      var n := |s| - 1;
      assert forall x :: x in s[..n] ==> x != s[n];
      DistinctCount(s[..n], bound - {s[n]});
    }
  }

  lemma KahnBound(d: map<string, int>, queue: seq<string>, order: seq<string>)
    requires Kahn(d, queue, order)
    ensures |order| + |queue| <= |d.Keys|
  {
    DistinctCount(order + queue, d.Keys);
  }

  /** The queue loop. It ends because no task is queued twice. */
  function Drain(deps: seq<Entry>, d: map<string, int>, queue: seq<string>, order: seq<string>): seq<string>
    requires DistinctKeys(deps) && Kahn(d, queue, order)
    decreases |d.Keys| - |order|
  {
    if queue == [] then order else
    var (e, q) := Relax(deps, queue[0], d, queue[1..]);
    KahnStep(deps, d, queue, order);
    KahnBound(d, queue, order);
    Relaxed(deps, queue[0], d, queue[1..]);
    Drain(deps, e, q, order + [queue[0]])
  }

  function NotIn(ids: seq<string>, done: seq<string>): seq<string> {
    if ids == [] then [] else
    var n := |ids| - 1;
    if ids[n] in done then NotIn(ids[..n], done) else NotIn(ids[..n], done) + [ids[n]]
  }

  function AllDegrees(tasks: seq<Task>): map<string, int> { Degrees(tasks, |tasks|) }

  lemma {:induction false} DegreesNat(tasks: seq<Task>, k: nat)
    requires k <= |tasks|
    ensures forall x :: x in Degrees(tasks, k) ==> Degrees(tasks, k)[x] >= 0
  {
    if k > 0 {
      DegreesNat(tasks, k - 1);
      TaskInIds(tasks, k - 1);
    }
  }

  lemma {:induction false} ZeroIdsAre(ids: seq<string>, d: map<string, int>)
    requires NoRepeats(ids) && forall x :: x in ids ==> x in d
    ensures NoRepeats(ZeroIds(ids, d))
    ensures forall x :: x in ZeroIds(ids, d) <==> x in ids && d[x] == 0
  {
    if ids != [] {
      ZeroIdsAre(ids[..|ids| - 1], d);
    }
  }

  lemma KahnStart(tasks: seq<Task>)
    ensures forall x :: x in Ids(tasks) <==> x in AllDegrees(tasks)
    ensures Kahn(AllDegrees(tasks), ZeroIds(Ids(tasks), AllDegrees(tasks)), [])
  {
    IdsDistinct(tasks);
    DegreesNat(tasks, |tasks|);
    ZeroIdsAre(Ids(tasks), AllDegrees(tasks));
    assert [] + ZeroIds(Ids(tasks), AllDegrees(tasks)) == ZeroIds(Ids(tasks), AllDegrees(tasks));
  }

  /** The part of the order that comes out of the queue. */
  function Drained(plan: Plan): seq<string>
    requires plan.Valid()
  {
    KahnStart(plan.tasks);
    Drain(plan.dependencies, AllDegrees(plan.tasks), ZeroIds(Ids(plan.tasks), AllDegrees(plan.tasks)), [])
  }

  function ExecutionOrder(plan: Plan): seq<string>
    requires plan.Valid()
  {
    Drained(plan) + NotIn(Ids(plan.tasks), Drained(plan))
  }

  // ---- every id once, whatever the plan ----

  lemma {:induction false} DrainKeeps(deps: seq<Entry>, d: map<string, int>, queue: seq<string>, order: seq<string>)
    requires DistinctKeys(deps) && Kahn(d, queue, order)
    ensures var r := Drain(deps, d, queue, order);
      && order <= r && NoRepeats(r) && (forall x :: x in r ==> x in d)
    decreases |d.Keys| - |order|
  {
    if queue == [] {
      assert order + queue == order;
    } else {
      var (e, q) := Relax(deps, queue[0], d, queue[1..]);
      KahnStep(deps, d, queue, order);
      KahnBound(d, queue, order);
      Relaxed(deps, queue[0], d, queue[1..]);
      DrainKeeps(deps, e, q, order + [queue[0]]);
    }
  }

  lemma {:induction false} NotInAre(ids: seq<string>, done: seq<string>)
    requires NoRepeats(ids)
    ensures NoRepeats(NotIn(ids, done))
    ensures forall x :: x in NotIn(ids, done) <==> x in ids && x !in done
  {
    if ids != [] {
      NotInAre(ids[..|ids| - 1], done);
    }
  }

  lemma {:induction false} IdsAre(tasks: seq<Task>, x: string)
    ensures x in Ids(tasks) <==> exists i :: 0 <= i < |tasks| && tasks[i].id == x
  {
    if tasks != [] {
      var n := |tasks| - 1;
      IdsAre(tasks[..n], x);
      if i :| 0 <= i < |tasks| && tasks[i].id == x {
        assert i < n ==> tasks[..n][i].id == x;
      }
    }
  }

  /** Main result, for every plan: cyclic, with missing or self dependencies, or with the two views at odds,
      each distinct task id comes out exactly once and nothing else does. */
  lemma EveryIdOnce(plan: Plan)
    requires plan.Valid()
    ensures NoRepeats(ExecutionOrder(plan))
    ensures forall x :: x in ExecutionOrder(plan) <==> exists i :: 0 <= i < |plan.tasks| && plan.tasks[i].id == x
  {
    var ids, order := Ids(plan.tasks), Drained(plan);
    KahnStart(plan.tasks);
    DrainKeeps(plan.dependencies, AllDegrees(plan.tasks), ZeroIds(ids, AllDegrees(plan.tasks)), []);
    IdsDistinct(plan.tasks);
    NotInAre(ids, order);
    DistinctJoin(order, NotIn(ids, order));
    forall x
      ensures x in ExecutionOrder(plan) <==> exists i :: 0 <= i < |plan.tasks| && plan.tasks[i].id == x
    {
      IdsAre(plan.tasks, x);
    }
  }

  // ---- what the queue finds when the two views agree ----

  /** Task x lists a, a task of the plan, among its dependencies. */
  predicate Needs(plan: Plan, x: string, a: string) {
    a in Ids(plan.tasks) && exists i :: 0 <= i < |plan.tasks| && plan.tasks[i].id == x && a in plan.tasks[i].dependsOn
  }

  /** Unique ids and no repeated dependency. */
  predicate Simple(plan: Plan) {
    && plan.Valid()
    && UniqueIds(plan.tasks)
    && (forall i :: 0 <= i < |plan.tasks| ==> NoRepeats(plan.tasks[i].dependsOn))
  }

  /** Both views name the same pairs of tasks. */
  predicate Agree(plan: Plan) {
    && Simple(plan)
    && (forall x, a :: x in Ids(plan.tasks) && a in Ids(plan.tasks) ==>
          (Needs(plan, x, a) <==> Blocks(plan.dependencies, a, x)))
  }

  /** The dependencies of x that are not done. */
  function Left(plan: Plan, x: string, done: seq<string>): set<string> {
    set a | a in Ids(plan.tasks) && Needs(plan, x, a) && a !in done
  }

  ghost predicate DegreesCount(plan: Plan, d: map<string, int>, done: seq<string>) {
    && (forall x :: x in d <==> x in Ids(plan.tasks))
    && (forall x :: x in d ==> d[x] == |Left(plan, x, done)|)
  }

  /** Every dependency of a task comes before it. */
  ghost predicate Ordered(plan: Plan, order: seq<string>) {
    forall i, a :: 0 <= i < |order| && Needs(plan, order[i], a) ==> a in order[..i]
  }

  lemma {:induction false} CountDistinct(deps: seq<string>, ids: set<string>)
    requires NoRepeats(deps)
    ensures CountIn(deps, ids) == |set a | a in deps && a in ids|
  {
    if deps == [] {
      assert (set a | a in deps && a in ids) == {};
    } else {
      var n := |deps| - 1;
      CountDistinct(deps[..n], ids);
      LastDistinct(deps[..n], deps[n], ids);
      assert deps == deps[..n] + [deps[n]];
    }
  }

  lemma LastDistinct(front: seq<string>, x: string, ids: set<string>)
    requires NoRepeats(front + [x])
    ensures |set a | a in front + [x] && a in ids| == |set a | a in front && a in ids| + if x in ids then 1 else 0
  {
    var all := front + [x];
    assert all[|front|] == x && forall i :: 0 <= i < |front| ==> all[i] == front[i];
    var before := set a | a in front && a in ids;
    assert (set a | a in all && a in ids) == if x in ids then before + {x} else before;
  }

  lemma DependencyCount(plan: Plan, i: nat, ids: set<string>)
    requires Simple(plan) && i < |plan.tasks| && forall x :: x in ids <==> x in Ids(plan.tasks)
    ensures CountIn(plan.tasks[i].dependsOn, ids) == |Left(plan, plan.tasks[i].id, [])|
  {
    var t := plan.tasks[i];
    CountDistinct(t.dependsOn, ids);
    forall a
      ensures Needs(plan, t.id, a) <==> a in ids && a in t.dependsOn
    {
    }
    assert (set a | a in t.dependsOn && a in ids) == Left(plan, t.id, []);
  }

  predicate UniqueIds(tasks: seq<Task>) {
    forall i, j :: 0 <= i < j < |tasks| ==> tasks[i].id != tasks[j].id
  }

  /** After k tasks, the degree of an id whose task has been seen counts its dependencies in the plan. */
  lemma {:induction false} DegreeOf(tasks: seq<Task>, k: nat, i: nat)
    requires UniqueIds(tasks) && k <= |tasks| && i < |tasks|
    ensures tasks[i].id in Degrees(tasks, k)
    ensures Degrees(tasks, k)[tasks[i].id] == if i < k then CountIn(tasks[i].dependsOn, Zeros(tasks).Keys) else 0
    decreases k
  {
    TaskInIds(tasks, i);
    if k > 0 {
      DegreeOf(tasks, k - 1, i);
      if i != k - 1 {
        assert tasks[i].id != tasks[k - 1].id;
      }
    }
  }

  lemma StartCounts(plan: Plan)
    requires Simple(plan)
    ensures DegreesCount(plan, AllDegrees(plan.tasks), [])
  {
    KahnStart(plan.tasks);
    forall x | x in AllDegrees(plan.tasks)
      ensures AllDegrees(plan.tasks)[x] == |Left(plan, x, [])|
    {
      IdsAre(plan.tasks, x);
      var i :| 0 <= i < |plan.tasks| && plan.tasks[i].id == x;
      DegreeOf(plan.tasks, |plan.tasks|, i);
      DependencyCount(plan, i, Zeros(plan.tasks).Keys);
    }
  }

  lemma LeftStep(plan: Plan, x: string, order: seq<string>, c: string)
    requires c in Ids(plan.tasks) && c !in order
    ensures |Left(plan, x, order + [c])| == |Left(plan, x, order)| - if Needs(plan, x, c) then 1 else 0
  {
    assert Left(plan, x, order + [c]) == Left(plan, x, order) - {c};
  }

  lemma CountsStep(plan: Plan, d: map<string, int>, queue: seq<string>, order: seq<string>)
    requires Agree(plan) && Kahn(d, queue, order) && queue != []
    requires DegreesCount(plan, d, order) && Ordered(plan, order)
    ensures DegreesCount(plan, Relax(plan.dependencies, queue[0], d, queue[1..]).0, order + [queue[0]])
    ensures Ordered(plan, order + [queue[0]])
  {
    var c := queue[0];
    QueueHead(d, queue, order);
    Relaxed(plan.dependencies, c, d, queue[1..]);
    forall x | x in d { LeftStep(plan, x, order, c); }
    HeadReady(plan, c, d, order);
    OrderedSnoc(plan, order, c);
  }

  lemma QueueHead(d: map<string, int>, queue: seq<string>, order: seq<string>)
    requires Kahn(d, queue, order) && queue != []
    ensures queue[0] in d && queue[0] !in order && d[queue[0]] <= 0
  {
    assert (order + queue)[|order|] == queue[0];
    assert forall i :: 0 <= i < |order| ==> (order + queue)[i] == order[i];
  }

  /** A task whose degree is down to zero has all its dependencies done. */
  lemma HeadReady(plan: Plan, c: string, d: map<string, int>, order: seq<string>)
    requires DegreesCount(plan, d, order) && c in d && d[c] <= 0
    ensures forall a :: Needs(plan, c, a) ==> a in order
  {
    forall a | Needs(plan, c, a)
      ensures a in order
    {
      assert a !in Left(plan, c, order);
    }
  }

  lemma OrderedSnoc(plan: Plan, order: seq<string>, c: string)
    requires Ordered(plan, order) && forall a :: Needs(plan, c, a) ==> a in order
    ensures Ordered(plan, order + [c])
  {
    var longer := order + [c];
    forall i, a | 0 <= i < |longer| && Needs(plan, longer[i], a)
      ensures a in longer[..i]
    {
      assert longer[..i] == order[..i];
      assert order[..|order|] == order;
    }
  }

  /** The queue's output is in dependency order, and every task it misses lacks a dependency that it misses too. */
  lemma {:induction false} DrainResult(plan: Plan, d: map<string, int>, queue: seq<string>, order: seq<string>)
    requires Agree(plan) && Kahn(d, queue, order) && DegreesCount(plan, d, order) && Ordered(plan, order)
    ensures var r := Drain(plan.dependencies, d, queue, order);
      && Ordered(plan, r)
      && MissedNeedMissed(plan, r)
    decreases |d.Keys| - |order|
  {
    if queue == [] {
      assert order + queue == order;
    } else {
      var (e, q) := Relax(plan.dependencies, queue[0], d, queue[1..]);
      KahnStep(plan.dependencies, d, queue, order);
      KahnBound(d, queue, order);
      Relaxed(plan.dependencies, queue[0], d, queue[1..]);
      CountsStep(plan, d, queue, order);
      DrainResult(plan, e, q, order + [queue[0]]);
    }
  }

  // ---- first in, first out ----

  /** What is queued comes out in the order it was queued in, before anything queued later. */
  lemma {:induction false} DrainFifo(deps: seq<Entry>, d: map<string, int>, queue: seq<string>, order: seq<string>)
    requires DistinctKeys(deps) && Kahn(d, queue, order)
    ensures order + queue <= Drain(deps, d, queue, order)
    decreases |d.Keys| - |order|
  {
    if queue == [] {
      assert order + queue == order;
    } else {
      var (e, q) := Relax(deps, queue[0], d, queue[1..]);
      KahnStep(deps, d, queue, order);
      KahnBound(d, queue, order);
      Relaxed(deps, queue[0], d, queue[1..]);
      DrainFifo(deps, e, q, order + [queue[0]]);
      assert order + queue == order + [queue[0]] + queue[1..];
      assert order + [queue[0]] + queue[1..] <= order + [queue[0]] + q;
    }
  }

  /** The tasks that wait for none come first, in plan order. */
  lemma ReadyFirst(plan: Plan)
    requires plan.Valid()
    ensures ZeroIds(Ids(plan.tasks), AllDegrees(plan.tasks)) <= ExecutionOrder(plan)
  {
    var ready := ZeroIds(Ids(plan.tasks), AllDegrees(plan.tasks));
    KahnStart(plan.tasks);
    DrainFifo(plan.dependencies, AllDegrees(plan.tasks), ready, []);
    assert [] + ready == ready;
  }

  lemma {:induction false} ZeroIdsInOrder(ids: seq<string>, d: map<string, int>, i: nat, j: nat)
    requires (forall x :: x in ids ==> x in d) && i < j < |ZeroIds(ids, d)|
    ensures exists k, l :: 0 <= k < l < |ids| && ids[k] == ZeroIds(ids, d)[i] && ids[l] == ZeroIds(ids, d)[j]
    decreases |ids|
  {
    var n := |ids| - 1;
    var front := ZeroIds(ids[..n], d);
    if j < |front| {
      ZeroIdsInOrder(ids[..n], d, i, j);
      var k, l :| 0 <= k < l < n && ids[..n][k] == front[i] && ids[..n][l] == front[j];
      assert ids[k] == front[i] && ids[l] == front[j];
    } else {
      var k := ZeroIdAt(ids[..n], d, i);
      assert ids[k] == front[i] && ids[n] == ZeroIds(ids, d)[j];
    }
  }

  lemma {:induction false} ZeroIdAt(ids: seq<string>, d: map<string, int>, i: nat) returns (k: nat)
    requires (forall x :: x in ids ==> x in d) && i < |ZeroIds(ids, d)|
    ensures k < |ids| && ids[k] == ZeroIds(ids, d)[i]
    decreases |ids|
  {
    var n := |ids| - 1;
    if i < |ZeroIds(ids[..n], d)| {
      k := ZeroIdAt(ids[..n], d, i);
    } else {
      k := n;
    }
  }

  /** Tasks released together are queued in the order of their entries in `dependencies`. */
  lemma {:induction false} ReleasedInOrder(
    deps: seq<Entry>, current: string, d: map<string, int>, queue: seq<string>, i: nat, j: nat)
    requires DistinctKeys(deps) && |queue| <= i < j < |Relax(deps, current, d, queue).1|
    ensures var q := Relax(deps, current, d, queue).1;
      exists k, l :: 0 <= k < l < |deps| && deps[k].0 == q[i] && deps[l].0 == q[j]
    decreases |deps|
  {
    var n := |deps| - 1;
    var q1 := Relax(deps[..n], current, d, queue).1;
    Relaxed(deps[..n], current, d, queue);
    if j < |q1| {
      ReleasedInOrder(deps[..n], current, d, queue, i, j);
      var k, l :| 0 <= k < l < n && deps[..n][k].0 == q1[i] && deps[..n][l].0 == q1[j];
      assert deps[k].0 == q1[i] && deps[l].0 == q1[j];
    } else {
      assert q1[i] == q1[|queue|..][i - |queue|] && q1[i] in q1[|queue|..];
      var k :| 0 <= k < n && deps[..n][k].0 == q1[i];
      assert deps[k].0 == q1[i] && deps[n].0 == Relax(deps, current, d, queue).1[j];
    }
  }

  /** An id keeps the place of its first appearance. */
  lemma {:induction false} IdsPrefix(tasks: seq<Task>, k: nat)
    requires k <= |tasks|
    ensures Ids(tasks[..k]) <= Ids(tasks)
    decreases |tasks|
  {
    if k == |tasks| {
      assert tasks[..k] == tasks;
    } else {
      var n := |tasks| - 1;
      assert tasks[..n][..k] == tasks[..k];
      IdsPrefix(tasks[..n], k);
    }
  }

  // ---- cycles ----

  /** A walk along dependencies whose last task is an earlier one: it runs into a cycle. */
  predicate Lasso(plan: Plan, p: seq<string>, i: nat) {
    && i < |p| - 1 && p[i] == p[|p| - 1]
    && forall k :: 0 <= k < |p| - 1 ==> Needs(plan, p[k], p[k + 1])
  }

  /** x depends, in one or more steps or by being on it, on a dependency cycle. */
  ghost predicate DependsOnCycle(plan: Plan, x: string) {
    exists p: seq<string>, i: nat :: Lasso(plan, p, i) && p[0] == x
  }

  /** Down a walk from a task in dependency order, positions fall. */
  lemma {:induction false} WalkFalls(plan: Plan, order: seq<string>, p: seq<string>, k: nat, m: nat) returns (j: nat)
    requires Ordered(plan, order) && k < |p| && m < |order| && order[m] == p[0]
    requires forall x :: 0 <= x < |p| - 1 ==> Needs(plan, p[x], p[x + 1])
    ensures j <= m && order[j] == p[k] && (k > 0 ==> j < m)
    decreases k
  {
    if k == 0 {
      j := m;
    } else {
      var h := WalkFalls(plan, order, p, k - 1, m);
      assert Needs(plan, order[h], p[k]);
      j :| 0 <= j < h && order[..h][j] == p[k];
    }
  }

  predicate Walk(plan: Plan, p: seq<string>) {
    forall k :: 0 <= k < |p| - 1 ==> Needs(plan, p[k], p[k + 1])
  }

  lemma OrderedNoLasso(plan: Plan, order: seq<string>, p: seq<string>, i: nat, m: nat)
    requires Ordered(plan, order) && NoRepeats(order) && m < |order|
    ensures !(Lasso(plan, p, i) && p[0] == order[m])
  {
    if Lasso(plan, p, i) && p[0] == order[m] {
      var tail := p[i..];
      assert tail[|tail| - 1] == p[|p| - 1];
      var ji := WalkFalls(plan, order, p, i, m);
      var jn := WalkFalls(plan, order, tail, |tail| - 1, ji);
    }
  }

  /** Every missed task has a missed dependency. */
  ghost predicate MissedNeedMissed(plan: Plan, r: seq<string>) {
    forall x :: x in Ids(plan.tasks) && x !in r ==> Left(plan, x, r) != {}
  }

  /** From a missed task one can walk on through missed tasks as far as one likes. */
  lemma {:induction false} WalkMissed(plan: Plan, r: seq<string>, x: string, n: nat) returns (p: seq<string>)
    requires x in Ids(plan.tasks) && x !in r && MissedNeedMissed(plan, r)
    ensures |p| == n + 1 && p[0] == x && Walk(plan, p)
    ensures forall k :: 0 <= k < |p| ==> p[k] in Ids(plan.tasks)
    decreases n
  {
    if n == 0 {
      p := [x];
    } else {
      var a := NextMissed(plan, r, x);
      var rest := WalkMissed(plan, r, a, n - 1);
      p := [x] + rest;
      WalkCons(plan, x, rest);
    }
  }

  lemma NextMissed(plan: Plan, r: seq<string>, x: string) returns (a: string)
    requires x in Ids(plan.tasks) && x !in r && MissedNeedMissed(plan, r)
    ensures Needs(plan, x, a) && a in Ids(plan.tasks) && a !in r
  {
    a :| a in Left(plan, x, r);
  }

  lemma WalkCons(plan: Plan, x: string, rest: seq<string>)
    requires Walk(plan, rest) && rest != [] && Needs(plan, x, rest[0])
    ensures Walk(plan, [x] + rest)
  {
    var p := [x] + rest;
    assert forall k :: 0 < k < |p| ==> p[k] == rest[k - 1];
  }

  lemma LassoIn(plan: Plan, p: seq<string>, i: nat, j: nat)
    requires Walk(plan, p) && i < j < |p| && p[i] == p[j]
    ensures DependsOnCycle(plan, p[0])
  {
    var q := p[..j + 1];
    forall k | 0 <= k < |q| - 1
      ensures Needs(plan, q[k], q[k + 1])
    {
      assert q[k] == p[k] && q[k + 1] == p[k + 1];
    }
    assert Lasso(plan, q, i);
  }

  lemma LongRepeats(p: seq<string>, bound: set<string>) returns (i: nat, j: nat)
    requires |p| > |bound| && forall k :: 0 <= k < |p| ==> p[k] in bound
    ensures i < j < |p| && p[i] == p[j]
  {
    if forall a, b :: 0 <= a < b < |p| ==> p[a] != p[b] {
      DistinctCount(p, bound);
    }
    i, j :| 0 <= i < j < |p| && p[i] == p[j];
  }

  lemma MissedHasLasso(plan: Plan, r: seq<string>, x: string)
    requires x in Ids(plan.tasks) && x !in r && MissedNeedMissed(plan, r)
    ensures DependsOnCycle(plan, x)
  {
    var ids := set y | y in Ids(plan.tasks);
    var p := WalkMissed(plan, r, x, |ids|);
    var i, j := LongRepeats(p, ids);
    LassoIn(plan, p, i, j);
  }

  /** Main result. When the views agree, the queue puts out exactly the tasks that do not depend on a cycle,
      each after its dependencies; the rest follow in plan order. */
  lemma QueueFindsAcyclicPart(plan: Plan)
    requires Agree(plan)
    ensures var k := |Drained(plan)|;
      && Drained(plan) == ExecutionOrder(plan)[..k]
      && Ordered(plan, ExecutionOrder(plan)[..k])
      && (forall x :: x in ExecutionOrder(plan)[..k] <==> x in Ids(plan.tasks) && !DependsOnCycle(plan, x))
      && ExecutionOrder(plan)[k..] == NotIn(Ids(plan.tasks), ExecutionOrder(plan)[..k])
  {
    var ids, order := Ids(plan.tasks), Drained(plan);
    KahnStart(plan.tasks);
    StartCounts(plan);
    DrainKeeps(plan.dependencies, AllDegrees(plan.tasks), ZeroIds(ids, AllDegrees(plan.tasks)), []);
    DrainResult(plan, AllDegrees(plan.tasks), ZeroIds(ids, AllDegrees(plan.tasks)), []);
    assert ExecutionOrder(plan)[..|order|] == order;
    AcyclicPart(plan, order);
  }

  lemma AcyclicPart(plan: Plan, order: seq<string>)
    requires Ordered(plan, order) && NoRepeats(order) && MissedNeedMissed(plan, order)
    requires forall x :: x in order ==> x in Ids(plan.tasks)
    ensures forall x :: x in order <==> x in Ids(plan.tasks) && !DependsOnCycle(plan, x)
  {
    forall x
      ensures x in order <==> x in Ids(plan.tasks) && !DependsOnCycle(plan, x)
    {
      if x in order {
        var m :| 0 <= m < |order| && order[m] == x;
        forall p, i: nat { OrderedNoLasso(plan, order, p, i, m); }
      } else if x in Ids(plan.tasks) {
        MissedHasLasso(plan, order, x);
      }
    }
  }

  /** On an acyclic plan whose views agree the whole result is a topological order. */
  lemma AcyclicIsTopological(plan: Plan)
    requires Agree(plan) && forall x :: x in Ids(plan.tasks) ==> !DependsOnCycle(plan, x)
    ensures Ordered(plan, ExecutionOrder(plan))
  {
    QueueFindsAcyclicPart(plan);
    var ids, order := Ids(plan.tasks), Drained(plan);
    IdsDistinct(plan.tasks);
    NotInAre(ids, order);
    FirstIn(NotIn(ids, order));
    assert ExecutionOrder(plan) == order;
  }

  lemma FirstIn(s: seq<string>)
    ensures s == [] || s[0] in s
  {
  }

  // ---- the method ----

  method GetExecutionOrder(plan: Plan) returns (order: seq<string>)
    requires plan.Valid()
    ensures order == ExecutionOrder(plan)
  {
    var ids := CollectIds(plan.tasks);
    var inDegree := CountDegrees(plan.tasks, ids);
    KahnStart(plan.tasks);
    var queue := ReadyTasks(ids, inDegree);
    var drained := DrainQueue(plan.dependencies, inDegree, queue);
    IdsDistinct(plan.tasks);
    order := AppendRest(ids, drained);
  }

  /** The keys of the in-degree dictionary, in insertion order. */
  method CollectIds(tasks: seq<Task>) returns (ids: seq<string>)
    ensures ids == Ids(tasks)
  {
    ids := [];
    for i := 0 to |tasks|
      invariant ids == Ids(tasks[..i])
    {
      assert tasks[..i + 1][..i] == tasks[..i];
      if tasks[i].id !in ids {
        ids := ids + [tasks[i].id];
      }
    }
    assert tasks[..|tasks|] == tasks;
  }

  method CountDegrees(tasks: seq<Task>, ids: seq<string>) returns (inDegree: map<string, int>)
    requires ids == Ids(tasks)
    ensures inDegree == AllDegrees(tasks)
  {
    inDegree := map x | x in ids :: 0;
    for i := 0 to |tasks|
      invariant inDegree == Degrees(tasks, i)
    {
      TaskInIds(tasks, i);
      inDegree := AddDependencies(tasks[i], inDegree);
    }
  }

  method AddDependencies(t: Task, d: map<string, int>) returns (inDegree: map<string, int>)
    requires t.id in d
    ensures inDegree == AddTask(d, t)
  {
    inDegree := d;
    for j := 0 to |t.dependsOn|
      invariant inDegree == d[t.id := d[t.id] + CountIn(t.dependsOn[..j], d.Keys)]
    {
      assert t.dependsOn[..j + 1][..j] == t.dependsOn[..j];
      if t.dependsOn[j] in inDegree {
        inDegree := inDegree[t.id := inDegree[t.id] + 1];
      }
    }
    assert t.dependsOn[..|t.dependsOn|] == t.dependsOn;
  }

  method DrainQueue(deps: seq<Entry>, d: map<string, int>, q: seq<string>) returns (order: seq<string>)
    requires DistinctKeys(deps) && Kahn(d, q, [])
    ensures order == Drain(deps, d, q, [])
  {
    var inDegree, queue := d, q;
    order := [];
    while queue != []
      invariant Kahn(inDegree, queue, order)
      invariant Drain(deps, inDegree, queue, order) == Drain(deps, d, q, [])
      decreases |inDegree.Keys| - |order|
    {
      var current := queue[0];
      KahnStep(deps, inDegree, queue, order);
      KahnBound(inDegree, queue, order);
      Relaxed(deps, current, inDegree, queue[1..]);
      inDegree, queue := Release(deps, current, inDegree, queue[1..]);
      order := order + [current];
    }
  }

  /** The tasks the queue never reached. */
  method AppendRest(ids: seq<string>, drained: seq<string>) returns (order: seq<string>)
    requires NoRepeats(ids)
    ensures order == drained + NotIn(ids, drained)
  {
    order := drained;
    for i := 0 to |ids|
      invariant order == drained + NotIn(ids[..i], drained)
    {
      assert ids[..i + 1][..i] == ids[..i];
      NotYet(ids, i, drained);
      if ids[i] !in order {
        order := order + [ids[i]];
      }
    }
    assert ids[..|ids|] == ids;
  }

  method ReadyTasks(ids: seq<string>, inDegree: map<string, int>) returns (queue: seq<string>)
    requires forall x :: x in ids ==> x in inDegree
    ensures queue == ZeroIds(ids, inDegree)
  {
    queue := [];
    for i := 0 to |ids|
      invariant queue == ZeroIds(ids[..i], inDegree)
    {
      assert ids[..i + 1][..i] == ids[..i];
      if inDegree[ids[i]] == 0 {
        queue := queue + [ids[i]];
      }
    }
    assert ids[..|ids|] == ids;
  }

  /** The inner loop over `dependencies`. */
  method Release(deps: seq<Entry>, current: string, d: map<string, int>, q: seq<string>)
    returns (inDegree: map<string, int>, queue: seq<string>)
    ensures (inDegree, queue) == Relax(deps, current, d, q)
  {
    inDegree, queue := d, q;
    for i := 0 to |deps|
      invariant (inDegree, queue) == Relax(deps[..i], current, d, q)
    {
      assert deps[..i + 1][..i] == deps[..i];
      var (blocked, blockers) := deps[i];
      if current in blockers && blocked in inDegree {
        inDegree := inDegree[blocked := inDegree[blocked] - 1];
        if inDegree[blocked] == 0 {
          queue := queue + [blocked];
        }
      }
    }
    assert deps[..|deps|] == deps;
  }

  /** Distinct ids: what was appended so far is not the next one. */
  lemma NotYet(ids: seq<string>, i: nat, done: seq<string>)
    requires NoRepeats(ids) && i < |ids|
    ensures ids[i] !in NotIn(ids[..i], done)
  {
    NotInAre(ids[..i], done);
    assert forall j :: 0 <= j < i ==> ids[..i][j] != ids[i];
  }
}
