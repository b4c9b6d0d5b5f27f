/** What `get_execution_order` makes of a plan whose `dependencies` are filled in as the field's comment says,
    from a task to those it blocks, or not filled in at all. The code reads the field the other way round. */
module CommentReading {
  import opened PlanArtifacts
  import opened PlanOrder

  /** From each task to those that need it. */
  predicate FromBlockers(plan: Plan) {
    forall x, a :: x in Ids(plan.tasks) && a in Ids(plan.tasks) ==>
      (Needs(plan, x, a) <==> Blocks(plan.dependencies, x, a))
  }

  /** A task without dependencies in the plan. */
  predicate IsRoot(plan: Plan, x: string) {
    forall a :: a in Ids(plan.tasks) ==> !Needs(plan, x, a)
  }

  function Roots(plan: Plan, ids: seq<string>): seq<string> {
    if ids == [] then [] else
    var n := |ids| - 1;
    Roots(plan, ids[..n]) + if IsRoot(plan, ids[n]) then [ids[n]] else []
  }

  lemma {:induction false} RootsAre(plan: Plan, ids: seq<string>)
    ensures forall x :: x in Roots(plan, ids) <==> x in ids && IsRoot(plan, x)
  {
    if ids != [] {
      RootsAre(plan, ids[..|ids| - 1]);
    }
  }

  // ---- the queue holds the roots, and no root releases anything ----

  /** The field releases no task when a root is done: it is turned round, or empty, for instance. */
  predicate RootsBlockNothing(plan: Plan) {
    forall c, x :: c in Ids(plan.tasks) && IsRoot(plan, c) && x in Ids(plan.tasks) ==> !Blocks(plan.dependencies, c, x)
  }

  lemma TurnedRound(plan: Plan)
    requires FromBlockers(plan)
    ensures RootsBlockNothing(plan)
  {
  }

  lemma NotFilledIn(plan: Plan)
    requires plan.dependencies == []
    ensures plan.Valid() && RootsBlockNothing(plan)
  {
  }

  lemma {:induction false} CountNone(deps: seq<string>, ids: set<string>)
    ensures CountIn(deps, ids) == 0 <==> forall a :: a in deps ==> a !in ids
  {
    if deps != [] {
      var n := |deps| - 1;
      CountNone(deps[..n], ids);
      assert deps == deps[..n] + [deps[n]];
    }
  }

  /** None of the first k tasks with this id has a dependency among `ids`. */
  predicate FreeSoFar(tasks: seq<Task>, k: nat, x: string, ids: set<string>)
    requires k <= |tasks|
  {
    forall i, a :: 0 <= i < k && tasks[i].id == x && a in tasks[i].dependsOn ==> a !in ids
  }

  /** Whatever the plan, a degree is zero exactly when no task with that id has a dependency in the plan. */
  lemma {:induction false} ZeroDegree(tasks: seq<Task>, k: nat, x: string)
    requires k <= |tasks| && x in Degrees(tasks, k)
    ensures Degrees(tasks, k)[x] == 0 <==> FreeSoFar(tasks, k, x, Zeros(tasks).Keys)
  {
    if k > 0 {
      var t := tasks[k - 1];
      ZeroDegree(tasks, k - 1, x);
      DegreesNat(tasks, k - 1);
      TaskInIds(tasks, k - 1);
      CountNone(t.dependsOn, Zeros(tasks).Keys);
      FreeNext(tasks, k, x, Zeros(tasks).Keys);
    }
  }

  lemma FreeNext(tasks: seq<Task>, k: nat, x: string, ids: set<string>)
    requires 0 < k <= |tasks|
    ensures var t := tasks[k - 1];
      FreeSoFar(tasks, k, x, ids) <==>
      FreeSoFar(tasks, k - 1, x, ids) && (t.id == x ==> forall a :: a in t.dependsOn ==> a !in ids)
  {
  }

  lemma RootDegrees(plan: Plan)
    ensures forall x :: x in Ids(plan.tasks) <==> x in AllDegrees(plan.tasks)
    ensures forall x :: x in Ids(plan.tasks) ==> (AllDegrees(plan.tasks)[x] == 0 <==> IsRoot(plan, x))
  {
    KahnStart(plan.tasks);
    forall x | x in Ids(plan.tasks)
      ensures AllDegrees(plan.tasks)[x] == 0 <==> IsRoot(plan, x)
    {
      ZeroDegree(plan.tasks, |plan.tasks|, x);
      RootIsFree(plan, x);
    }
  }

  lemma RootIsFree(plan: Plan, x: string)
    ensures IsRoot(plan, x) <==> FreeSoFar(plan.tasks, |plan.tasks|, x, Zeros(plan.tasks).Keys)
  {
    var ids := Zeros(plan.tasks).Keys;
    assert forall a :: a in ids <==> a in Ids(plan.tasks);
    forall a | a in Ids(plan.tasks) && Needs(plan, x, a)
      ensures !FreeSoFar(plan.tasks, |plan.tasks|, x, ids)
    {
      var i :| 0 <= i < |plan.tasks| && plan.tasks[i].id == x && a in plan.tasks[i].dependsOn;
      assert a in ids;
    }
    if i, a :| 0 <= i < |plan.tasks| && plan.tasks[i].id == x && a in plan.tasks[i].dependsOn && a in ids {
      assert Needs(plan, x, a);
    }
  }

  lemma {:induction false} ZeroIdsAreRoots(plan: Plan, ids: seq<string>, d: map<string, int>)
    requires forall x :: x in ids ==> x in d && (d[x] == 0 <==> IsRoot(plan, x))
    ensures ZeroIds(ids, d) == Roots(plan, ids)
  {
    if ids != [] {
      var n := |ids| - 1;
      ZeroIdsAreRoots(plan, ids[..n], d);
      assert ids[n] in ids;
    }
  }

  lemma RootReleasesNothing(plan: Plan, c: string, d: map<string, int>, queue: seq<string>)
    requires plan.Valid() && RootsBlockNothing(plan) && c in Ids(plan.tasks) && IsRoot(plan, c)
    requires forall x :: x in d ==> x in Ids(plan.tasks)
    ensures Relax(plan.dependencies, c, d, queue) == (d, queue)
  {
    Relaxed(plan.dependencies, c, d, queue);
    var (e, q) := Relax(plan.dependencies, c, d, queue);
    assert forall x :: x in d ==> !Blocks(plan.dependencies, c, x);
    assert e == d;
    FirstIn(q[|queue|..]);
    assert q[|queue|..] == [];
    assert q == queue + q[|queue|..] == queue;
  }

  lemma {:induction false} DrainRoots(plan: Plan, d: map<string, int>, queue: seq<string>, order: seq<string>)
    requires plan.Valid() && RootsBlockNothing(plan) && Kahn(d, queue, order)
    requires forall x :: x in d ==> x in Ids(plan.tasks)
    requires forall x :: x in queue ==> IsRoot(plan, x)
    ensures Drain(plan.dependencies, d, queue, order) == order + queue
    decreases |queue|
  {
    if queue == [] {
      assert order + queue == order;
    } else {
      var c, rest := queue[0], queue[1..];
      assert order + queue == order + [c] + rest;
      QueueHead(d, queue, order);
      RootReleasesNothing(plan, c, d, rest);
      KahnStep(plan.dependencies, d, queue, order);
      DrainRoots(plan, d, rest, order + [c]);
    }
  }

  /** The roots come first and the other tasks follow, both in plan order. */
  lemma RootsThenRest(plan: Plan)
    requires plan.Valid() && RootsBlockNothing(plan)
    ensures var roots := Roots(plan, Ids(plan.tasks));
      ExecutionOrder(plan) == roots + NotIn(Ids(plan.tasks), roots)
  {
    var ids, d := Ids(plan.tasks), AllDegrees(plan.tasks);
    KahnStart(plan.tasks);
    RootDegrees(plan);
    ZeroIdsAreRoots(plan, ids, d);
    RootsAre(plan, ids);
    DrainRoots(plan, d, Roots(plan, ids), []);
    assert [] + Roots(plan, ids) == Roots(plan, ids);
  }

  // ---- when that is a dependency order ----

  /** Every dependency of a task is a root or stands earlier among the distinct ids. */
  ghost predicate EarlierOrRoot(plan: Plan) {
    var ids := Ids(plan.tasks);
    forall p, a :: 0 <= p < |ids| && Needs(plan, ids[p], a) ==> IsRoot(plan, a) || a in ids[..p]
  }

  /** Where an id that is not done stands among those not done. */
  lemma {:induction false} NotInAt(ids: seq<string>, done: seq<string>, p: nat)
    requires p < |ids| && ids[p] !in done
    ensures NotIn(ids[..p], done) + [ids[p]] <= NotIn(ids, done)
    decreases |ids|
  {
    var n := |ids| - 1;
    if p < n {
      NotInAt(ids[..n], done, p);
      assert ids[..n][..p] == ids[..p];
    }
  }

  lemma PrefixAfter(a: seq<string>, b: seq<string>, x: string, rest: seq<string>)
    requires b + [x] <= rest
    ensures |a + b| < |a + rest| && (a + rest)[..|a + b|] == a + b && (a + rest)[|a + b|] == x
  {
    assert rest[..|b| + 1][..|b|] == b && rest[|b|] == x;
  }

  /** The ids before the one at p, once the roots have been moved to the front. */
  function FrontOf(plan: Plan, p: nat): seq<string>
    requires p <= |Ids(plan.tasks)|
  {
    var ids := Ids(plan.tasks);
    Roots(plan, ids) + NotIn(ids[..p], Roots(plan, ids))
  }

  lemma FrontHolds(plan: Plan, p: nat, a: string)
    requires p <= |Ids(plan.tasks)| && a in Ids(plan.tasks)
    ensures a in FrontOf(plan, p) <==> IsRoot(plan, a) || a in Ids(plan.tasks)[..p]
  {
    var ids := Ids(plan.tasks);
    RootsAre(plan, ids);
    IdsDistinct(plan.tasks);
    NotInAre(ids[..p], Roots(plan, ids));
  }

  /** Where a task with dependencies stands in the order, and what comes before it. */
  lemma PlaceOf(plan: Plan, p: nat) returns (k: nat)
    requires plan.Valid() && RootsBlockNothing(plan)
    requires p < |Ids(plan.tasks)| && !IsRoot(plan, Ids(plan.tasks)[p])
    ensures k < |ExecutionOrder(plan)| && ExecutionOrder(plan)[k] == Ids(plan.tasks)[p]
    ensures ExecutionOrder(plan)[..k] == FrontOf(plan, p)
  {
    var ids := Ids(plan.tasks);
    var roots := Roots(plan, ids);
    RootsThenRest(plan);
    RootsAre(plan, ids);
    NotInAt(ids, roots, p);
    k := |FrontOf(plan, p)|;
    PrefixAfter(roots, NotIn(ids[..p], roots), ids[p], NotIn(ids, roots));
  }

  /** Main result. Filled in as the comment says, or not at all, a plan comes out in dependency order exactly when
      every dependency of a task is a root or stands earlier in the plan. */
  lemma CommentReadingIff(plan: Plan)
    requires plan.Valid() && RootsBlockNothing(plan)
    ensures Ordered(plan, ExecutionOrder(plan)) <==> EarlierOrRoot(plan)
  {
    var order, ids := ExecutionOrder(plan), Ids(plan.tasks);
    EveryIdOnce(plan);
    if EarlierOrRoot(plan) {
      forall i, a | 0 <= i < |order| && Needs(plan, order[i], a)
        ensures a in order[..i]
      {
        IdsAre(plan.tasks, order[i]);
        var p :| 0 <= p < |ids| && ids[p] == order[i];
        var k := PlaceOf(plan, p);
        FrontHolds(plan, p, a);
      }
    }
    if Ordered(plan, order) {
      forall p, a | 0 <= p < |ids| && Needs(plan, ids[p], a)
        ensures IsRoot(plan, a) || a in ids[..p]
      {
        var k := PlaceOf(plan, p);
        FrontHolds(plan, p, a);
      }
    }
  }

  // ---- a chain of three ----

  /** z needs y, y needs x; the plan lists them from last to first. The field is as the comment says, or empty. */
  predicate Chain(plan: Plan, x: string, y: string, z: string) {
    && x != y && y != z && x != z
    && |plan.tasks| == 3
    && plan.tasks[0].id == z && plan.tasks[0].dependsOn == [y]
    && plan.tasks[1].id == y && plan.tasks[1].dependsOn == [x]
    && plan.tasks[2].id == x && plan.tasks[2].dependsOn == []
    && (plan.dependencies == [(x, [y]), (y, [z])] || plan.dependencies == [])
  }

  lemma ChainIds(plan: Plan, x: string, y: string, z: string)
    requires Chain(plan, x, y, z)
    ensures Ids(plan.tasks) == [z, y, x]
    ensures forall s, t :: Needs(plan, s, t) <==> (s == z && t == y) || (s == y && t == x)
  {
    ThreeIds(plan.tasks);
    assert plan.tasks[0].id == z && plan.tasks[1].id == y;
  }

  lemma IdsSnoc(tasks: seq<Task>, t: Task)
    requires t.id !in Ids(tasks)
    ensures Ids(tasks + [t]) == Ids(tasks) + [t.id]
  {
    assert (tasks + [t])[..|tasks|] == tasks;
  }

  lemma ThreeIds(tasks: seq<Task>)
    requires |tasks| == 3 && tasks[0].id != tasks[1].id && tasks[0].id != tasks[2].id && tasks[1].id != tasks[2].id
    ensures Ids(tasks) == [tasks[0].id, tasks[1].id, tasks[2].id]
  {
    var a, b, c := tasks[0], tasks[1], tasks[2];
    ThreeSnoc(c, b, a);
    ThreeSnoc(c.id, b.id, a.id);
    IdsSnoc([], a);
    IdsSnoc([a], b);
    IdsSnoc([a, b], c);
    assert tasks == [a, b, c];
  }

  lemma ChainShape(plan: Plan, x: string, y: string, z: string)
    requires Chain(plan, x, y, z)
    ensures plan.Valid() && RootsBlockNothing(plan)
    ensures plan.dependencies != [] ==> FromBlockers(plan)
    ensures IsRoot(plan, x) && !IsRoot(plan, y) && !IsRoot(plan, z)
  {
    ChainIds(plan, x, y, z);
    assert Needs(plan, y, x) && x in [z, y, x] && Needs(plan, z, y) && y in [z, y, x];
    if plan.dependencies == [] {
      NotFilledIn(plan);
    } else {
      assert plan.dependencies[0] == (x, [y]) && plan.dependencies[1] == (y, [z]);
      TurnedRound(plan);
    }
  }

  /** The chain has no cycle: x, y, z is in dependency order. */
  lemma ChainAcyclic(plan: Plan, x: string, y: string, z: string, t: string)
    requires Chain(plan, x, y, z) && t in [x, y, z]
    ensures !DependsOnCycle(plan, t)
  {
    var order := [x, y, z];
    ChainIds(plan, x, y, z);
    forall i, a | 0 <= i < 3 && Needs(plan, order[i], a)
      ensures a in order[..i]
    {
      assert order[..1] == [x] && order[..2] == [x, y];
    }
    if DependsOnCycle(plan, t) {
      var p, i: nat :| Lasso(plan, p, i) && p[0] == t;
      var m :| 0 <= m < 3 && order[m] == t;
      OrderedNoLasso(plan, order, p, i, m);
    }
  }

  lemma RootsSnoc(plan: Plan, ids: seq<string>, x: string)
    ensures Roots(plan, ids + [x]) == if IsRoot(plan, x) then Roots(plan, ids) + [x] else Roots(plan, ids)
  {
    assert (ids + [x])[..|ids|] == ids;
    assert Roots(plan, ids) + [] == Roots(plan, ids);
  }

  lemma NotInSnoc(ids: seq<string>, x: string, done: seq<string>)
    ensures NotIn(ids + [x], done) == if x in done then NotIn(ids, done) else NotIn(ids, done) + [x]
  {
    assert (ids + [x])[..|ids|] == ids;
  }

  lemma ThreeSnoc<T>(x: T, y: T, z: T)
    ensures [] + [z] == [z] && [z] + [y] == [z, y] && [z, y] + [x] == [z, y, x] && [] + [x] == [x]
    ensures [x] + [z, y] == [x, z, y]
  {
  }

  lemma ChainRoots(plan: Plan, x: string, y: string, z: string)
    requires IsRoot(plan, x) && !IsRoot(plan, y) && !IsRoot(plan, z)
    ensures Roots(plan, [z, y, x]) == [x]
  {
    ThreeSnoc(x, y, z);
    RootsSnoc(plan, [], z);
    RootsSnoc(plan, [z], y);
    RootsSnoc(plan, [z, y], x);
  }

  lemma ChainRest(x: string, y: string, z: string)
    requires x != y && x != z
    ensures NotIn([z, y, x], [x]) == [z, y]
  {
    ThreeSnoc(x, y, z);
    NotInSnoc([], z, [x]);
    NotInSnoc([z], y, [x]);
    NotInSnoc([z, y], x, [x]);
  }

  /** Filled in as the comment says, or not at all, this acyclic plan comes out with a task before its dependency. */
  lemma CommentReadingFails(plan: Plan, x: string, y: string, z: string)
    requires Chain(plan, x, y, z)
    ensures plan.Valid() && ExecutionOrder(plan) == [x, z, y] && !Ordered(plan, ExecutionOrder(plan))
    ensures RootsBlockNothing(plan) && !EarlierOrRoot(plan)
  {
    ChainShape(plan, x, y, z);
    ChainOrder(plan, x, y, z);
    ChainLate(plan, x, y, z);
    CommentReadingIff(plan);
  }

  /** z stands before y, which it needs and which is no root. */
  lemma ChainLate(plan: Plan, x: string, y: string, z: string)
    requires Chain(plan, x, y, z) && !IsRoot(plan, y)
    ensures !EarlierOrRoot(plan)
  {
    ChainIds(plan, x, y, z);
    assert Ids(plan.tasks)[0] == z && Needs(plan, z, y);
  }

  lemma ChainOrder(plan: Plan, x: string, y: string, z: string)
    requires Chain(plan, x, y, z) && plan.Valid() && RootsBlockNothing(plan)
    ensures ExecutionOrder(plan) == [x, z, y]
  {
    ChainIds(plan, x, y, z);
    ChainShape(plan, x, y, z);
    ChainRoots(plan, x, y, z);
    ChainRest(x, y, z);
    RootsThenRest(plan);
    ThreeSnoc(x, y, z);
  }
}
