/** The canonical form of a plan artifact, its hash, and its round trip through a dictionary. */
module PlanIntegrity {
  import opened Prelude
  import opened Sorting
  import opened PlanArtifacts

  // ---- artifacts ----

  // A dictionary maps each key to a value or does not have it.

  datatype TaskDict = TaskDict(
    taskId: Option<string>, dependsOn: Option<seq<string>>,
    capabilityId: Option<string>, params: Option<string>, outputSchema: Option<string>, description: Option<string>,
    durationMs: Option<int>, priority: Option<int>)

  datatype MetadataDict = MetadataDict(
    planId: Option<string>, version: Option<string>, schemaVersion: Option<string>, estimatedCost: Option<string>,
    createdAt: Option<string>, createdBy: Option<string>, targetNode: Option<string>, targetModel: Option<string>,
    approvalStatus: Option<string>, approvedBy: Option<string>, approvedAt: Option<string>)

  /** The dictionary that is hashed has no signature. */
  datatype PlanDict = PlanDict(
    tasks: Option<seq<TaskDict>>, dependencies: Option<seq<Entry>>, metadata: MetadataDict, signature: Option<string>)

  function Get<T>(x: Option<T>, default: T): T { if x.Some? then x.value else default }

  const EMPTY_OBJECT := "{}"

  function TaskToDict(t: Task): TaskDict {
    var x := t.details;
    TaskDict(Some(t.id), Some(t.dependsOn), Some(x.capabilityId), Some(x.params), Some(x.outputSchema),
             Some(x.description), Some(x.durationMs), Some(x.priority))
  }

  function TaskFromDict(d: TaskDict): Task {
    Task(Get(d.taskId, ""), Get(d.dependsOn, []),
         Details(Get(d.capabilityId, ""), Get(d.params, EMPTY_OBJECT), Get(d.outputSchema, EMPTY_OBJECT),
                 Get(d.description, ""), Get(d.durationMs, 30000), Get(d.priority, 50)))
  }

  function MetadataToDict(m: Metadata): MetadataDict {
    MetadataDict(Some(m.planId), Some(m.version), Some(m.schemaVersion), Some(m.estimatedCost), Some(m.createdAt),
                 Some(m.createdBy), Some(m.targetNode), Some(m.targetModel), Some(m.approvalStatus),
                 Some(m.approvedBy), Some(m.approvedAt))
  }

  function MetadataFromDict(d: MetadataDict): Metadata {
    Metadata(Get(d.planId, ""), Get(d.version, "1.0.0"), Get(d.schemaVersion, "1.0"),
             Get(d.estimatedCost, EMPTY_OBJECT), Get(d.createdAt, ""), Get(d.createdBy, "brain.run_turn"),
             Get(d.targetNode, ""), Get(d.targetModel, ""), Get(d.approvalStatus, "pending"),
             Get(d.approvedBy, ""), Get(d.approvedAt, ""))
  }

  function TaskDicts(tasks: seq<Task>): seq<TaskDict> {
    seq(|tasks|, i requires 0 <= i < |tasks| => TaskToDict(tasks[i]))
  }

  function TasksOf(ds: seq<TaskDict>): seq<Task> {
    seq(|ds|, i requires 0 <= i < |ds| => TaskFromDict(ds[i]))
  }

  /** Entries are sorted by key. */
  predicate KeyLe(a: Entry, b: Entry) { TextLe(a.0, b.0) }

  function SortValues(deps: seq<Entry>): seq<Entry> {
    seq(|deps|, i requires 0 <= i < |deps| => (deps[i].0, Sort(deps[i].1, TextLe)))
  }

  function CanonicalDependencies(deps: seq<Entry>): seq<Entry> { SortValues(Sort(deps, KeyLe)) }

  function CanonicalDict(p: Plan): PlanDict {
    PlanDict(Some(TaskDicts(p.tasks)), Some(CanonicalDependencies(p.dependencies)), MetadataToDict(p.metadata), None)
  }

  function ToDict(p: Plan): PlanDict { CanonicalDict(p).(signature := Some(p.signature)) }

  /** The constructor fills in an empty signature. */
  function FromDict(d: PlanDict, hash: PlanDict -> string): Plan {
    var tasks, deps := TasksOf(Get(d.tasks, [])), Get(d.dependencies, []);
    var p := Plan(tasks, deps, MetadataFromDict(d.metadata), Get(d.signature, ""));
    if p.signature == "" then p.(signature := hash(CanonicalDict(p))) else p
  }

  function Verify(p: Plan, hash: PlanDict -> string): bool { p.signature == hash(CanonicalDict(p)) }

  // ---- round trip ----

  lemma KeyOrders()
    ensures Orders(KeyLe)
  {
    TextOrders();
  }

  lemma DistinctTells(deps: seq<Entry>)
    requires DistinctKeys(deps)
    ensures Tells(deps, KeyLe)
  {
    TextOrders();
    forall x: Entry, y: Entry | KeyLe(x, y) && KeyLe(y, x)
      ensures x.0 == y.0
    {
      TextTotal(x.0, y.0);
    }
  }

  lemma {:induction false} AllDistinct(deps: seq<Entry>)
    requires DistinctKeys(deps)
    ensures forall e :: e in deps ==> multiset(deps)[e] == 1
  {
    if deps != [] {
      var front, last := deps[..|deps| - 1], deps[|deps| - 1];
      AllDistinct(front);
      assert deps == front + [last] && last !in front;
    }
  }

  lemma SortedDistinct(deps: seq<Entry>)
    requires DistinctKeys(deps)
    ensures DistinctKeys(Sort(deps, KeyLe))
  {
    var s := Sort(deps, KeyLe);
    KeyOrders();
    SortSorts(deps, KeyLe);
    AllDistinct(deps);
    DistinctTells(deps);
    forall i, j | 0 <= i < j < |s| && s[i].0 == s[j].0
      ensures false
    {
      assert s[i] in multiset(deps) && s[j] in multiset(deps);
      TwiceCounted(s, i, j);
    }
  }

  /** The canonical dependencies: keys in order, none twice. */
  lemma CanonicalShape(deps: seq<Entry>)
    requires DistinctKeys(deps)
    ensures Sorted(CanonicalDependencies(deps), KeyLe) && DistinctKeys(CanonicalDependencies(deps))
  {
    KeyOrders();
    SortSorts(deps, KeyLe);
    SortedDistinct(deps);
  }

  lemma SortedValues(deps: seq<Entry>)
    ensures SortValues(SortValues(deps)) == SortValues(deps)
  {
    var s := SortValues(deps);
    forall i | 0 <= i < |deps|
      ensures SortValues(s)[i] == s[i]
    {
      SameText(deps[i].1, deps[i].1);
    }
  }

  /** Sorting what is canonical already changes nothing. */
  lemma DependenciesAgain(deps: seq<Entry>)
    requires DistinctKeys(deps)
    ensures CanonicalDependencies(CanonicalDependencies(deps)) == CanonicalDependencies(deps)
  {
    var c := CanonicalDependencies(deps);
    CanonicalShape(deps);
    DistinctTells(c);
    KeyOrders();
    SortedStays(c, KeyLe);
    SortedValues(Sort(deps, KeyLe));
  }

  /** A task survives its dictionary whole. */
  lemma TasksSurvive(tasks: seq<Task>)
    ensures TasksOf(TaskDicts(tasks)) == tasks
  {
    forall i | 0 <= i < |tasks|
      ensures TaskFromDict(TaskToDict(tasks[i])) == tasks[i]
    {
    }
  }

  /** A plan rebuilt from its canonical form has that same form, whatever its signature. */
  lemma CanonicalAgain(p: Plan, signature: string)
    requires p.Valid()
    ensures var q := p.(dependencies := CanonicalDependencies(p.dependencies), signature := signature);
      q.Valid() && CanonicalDict(q) == CanonicalDict(p)
  {
    CanonicalShape(p.dependencies);
    DependenciesAgain(p.dependencies);
  }

  /** Through the dictionary and back: tasks and metadata are the same, dependencies come out sorted,
      a set signature is kept, and the canonical form is the same. */
  lemma RoundTrip(p: Plan, hash: PlanDict -> string)
    requires p.Valid()
    ensures var q := FromDict(ToDict(p), hash);
      && q.Valid() && CanonicalDict(q) == CanonicalDict(p)
      && q.tasks == p.tasks && q.metadata == p.metadata
      && q.dependencies == CanonicalDependencies(p.dependencies)
      && q.signature == if p.signature != "" then p.signature else hash(CanonicalDict(p))
  {
    TasksSurvive(p.tasks);
    CanonicalAgain(p, p.signature);
    CanonicalAgain(p, FromDict(ToDict(p), hash).signature);
  }

  /** What is loaded from a dictionary passes the integrity check exactly when it bears the right signature,
      or none at all. */
  lemma LoadedVerifiesIff(d: PlanDict, hash: PlanDict -> string)
    ensures var q := FromDict(d, hash);
      Verify(q, hash) <==> Get(d.signature, "") == "" || Get(d.signature, "") == hash(CanonicalDict(q))
  {
    var q := FromDict(d, hash);
    assert CanonicalDict(q) == CanonicalDict(q.(signature := ""));
  }

  /** The round trip answers the integrity check as before exactly when the signature is set,
      since an empty one is computed anew; or when the hash itself is the empty text. */
  lemma RoundTripVerifiesIff(p: Plan, hash: PlanDict -> string)
    requires p.Valid()
    ensures Verify(FromDict(ToDict(p), hash), hash) == Verify(p, hash) <==>
            p.signature != "" || hash(CanonicalDict(p)) == ""
  {
    RoundTrip(p, hash);
  }

  // ---- what the canonical form ignores ----

  /** The same blocked tasks, each with the same blockers, whatever the order. */
  predicate Matched(a: seq<Entry>, b: seq<Entry>) {
    forall i :: 0 <= i < |a| ==> exists j :: 0 <= j < |b| && a[i].0 == b[j].0 && multiset(a[i].1) == multiset(b[j].1)
  }

  lemma CanonicalEntry(deps: seq<Entry>, e: Entry)
    ensures e in CanonicalDependencies(deps) <==>
            exists i :: 0 <= i < |deps| && e == (deps[i].0, Sort(deps[i].1, TextLe))
  {
    var s, c := Sort(deps, KeyLe), CanonicalDependencies(deps);
    KeyOrders();
    SortSorts(deps, KeyLe);
    if e in c {
      var k :| 0 <= k < |c| && c[k] == e;
      assert s[k] in multiset(deps);
      var i :| 0 <= i < |deps| && deps[i] == s[k];
    }
    if i :| 0 <= i < |deps| && e == (deps[i].0, Sort(deps[i].1, TextLe)) {
      assert deps[i] in multiset(s);
      var k :| 0 <= k < |s| && s[k] == deps[i];
      assert c[k] == e;
    }
  }

  lemma SameText(a: seq<string>, b: seq<string>)
    ensures multiset(a) == multiset(b) <==> Sort(a, TextLe) == Sort(b, TextLe)
    ensures Sort(Sort(a, TextLe), TextLe) == Sort(a, TextLe)
  {
    TextOrders();
    TextTells(a);
    SortIsCanonical(a, b, TextLe);
  }

  lemma EntriesWithin(a: seq<Entry>, b: seq<Entry>)
    requires Matched(a, b)
    ensures forall e :: e in CanonicalDependencies(a) ==> e in CanonicalDependencies(b)
  {
    forall e | e in CanonicalDependencies(a)
      ensures e in CanonicalDependencies(b)
    {
      CanonicalEntry(a, e);
      CanonicalEntry(b, e);
      var i :| 0 <= i < |a| && e == (a[i].0, Sort(a[i].1, TextLe));
      var j :| 0 <= j < |b| && a[i].0 == b[j].0 && multiset(a[i].1) == multiset(b[j].1);
      SameText(a[i].1, b[j].1);
    }
  }

  lemma SameEntries(a: seq<Entry>, b: seq<Entry>)
    requires Sorted(a, KeyLe) && Sorted(b, KeyLe) && DistinctKeys(a) && DistinctKeys(b)
    requires forall e :: e in a <==> e in b
    ensures a == b
  {
    AllDistinct(a);
    AllDistinct(b);
    DistinctTells(a);
    assert multiset(a) == multiset(b) by {
      forall e ensures multiset(a)[e] == multiset(b)[e] {
        assert e in a <==> e in multiset(a);
        assert e in b <==> e in multiset(b);
      }
    }
    KeyOrders();
    SortedUnique(a, b, KeyLe);
  }

  lemma MatchedFromCanonical(a: seq<Entry>, b: seq<Entry>)
    requires CanonicalDependencies(a) == CanonicalDependencies(b)
    ensures Matched(a, b)
  {
    forall i | 0 <= i < |a|
      ensures exists j :: 0 <= j < |b| && a[i].0 == b[j].0 && multiset(a[i].1) == multiset(b[j].1)
    {
      var e := (a[i].0, Sort(a[i].1, TextLe));
      CanonicalEntry(a, e);
      CanonicalEntry(b, e);
      var j :| 0 <= j < |b| && e == (b[j].0, Sort(b[j].1, TextLe));
      SameText(a[i].1, b[j].1);
    }
  }

  lemma SameDependenciesIff(a: seq<Entry>, b: seq<Entry>)
    requires DistinctKeys(a) && DistinctKeys(b)
    ensures CanonicalDependencies(a) == CanonicalDependencies(b) <==> Matched(a, b) && Matched(b, a)
  {
    if CanonicalDependencies(a) == CanonicalDependencies(b) {
      MatchedFromCanonical(a, b);
      MatchedFromCanonical(b, a);
    }
    if Matched(a, b) && Matched(b, a) {
      EntriesWithin(a, b);
      EntriesWithin(b, a);
      CanonicalShape(a);
      CanonicalShape(b);
      SameEntries(CanonicalDependencies(a), CanonicalDependencies(b));
    }
  }

  /** The same tasks and metadata, and the same dependencies up to the order of the dictionary and of its lists. */
  predicate SameButForOrder(p: Plan, q: Plan) {
    && p.tasks == q.tasks && p.metadata == q.metadata
    && Matched(p.dependencies, q.dependencies) && Matched(q.dependencies, p.dependencies)
  }

  lemma SameCanonicalIff(p: Plan, q: Plan)
    requires p.Valid() && q.Valid()
    ensures CanonicalDict(p) == CanonicalDict(q) <==> SameButForOrder(p, q)
  {
    SameDependenciesIff(p.dependencies, q.dependencies);
    TasksSurvive(p.tasks);
    TasksSurvive(q.tasks);
    assert MetadataFromDict(MetadataToDict(p.metadata)) == p.metadata;
    assert MetadataFromDict(MetadataToDict(q.metadata)) == q.metadata;
  }

  ghost predicate CollisionFree(hash: PlanDict -> string) {
    forall c, d :: hash(c) == hash(d) ==> c == d
  }

  /** A verified artifact, edited under its old signature, still verifies exactly when only the order of
      dependencies was touched. */
  lemma EditDetectedIff(p: Plan, q: Plan, hash: PlanDict -> string)
    requires p.Valid() && q.Valid() && CollisionFree(hash)
    requires Verify(p, hash) && q.signature == p.signature
    ensures Verify(q, hash) <==> SameButForOrder(p, q)
  {
    SameCanonicalIff(p, q);
  }

  // ---- the keys, and what stands for those that are missing ----

  /** Each field goes under its own key. */
  lemma TaskKeys(t: Task)
    ensures var d := TaskToDict(t);
      && d.taskId == Some(t.id) && d.dependsOn == Some(t.dependsOn)
      && d.capabilityId == Some(t.details.capabilityId) && d.params == Some(t.details.params)
      && d.outputSchema == Some(t.details.outputSchema) && d.description == Some(t.details.description)
      && d.durationMs == Some(t.details.durationMs) && d.priority == Some(t.details.priority)
  {
  }

  /** A missing key stands for the default, whatever the other keys hold. */
  lemma TaskDefaults(d: TaskDict)
    ensures var t := TaskFromDict(d);
      && (d.taskId.None? ==> t.id == "") && (d.dependsOn.None? ==> t.dependsOn == [])
      && (d.capabilityId.None? ==> t.details.capabilityId == "")
      && (d.description.None? ==> t.details.description == "")
      && (d.params.None? ==> t.details.params == "{}") && (d.outputSchema.None? ==> t.details.outputSchema == "{}")
      && (d.durationMs.None? ==> t.details.durationMs == 30000) && (d.priority.None? ==> t.details.priority == 50)
    ensures var e := TaskToDict(TaskFromDict(d));
      && (d.taskId.Some? ==> e.taskId == d.taskId) && (d.dependsOn.Some? ==> e.dependsOn == d.dependsOn)
      && (d.capabilityId.Some? ==> e.capabilityId == d.capabilityId) && (d.params.Some? ==> e.params == d.params)
      && (d.outputSchema.Some? ==> e.outputSchema == d.outputSchema)
      && (d.description.Some? ==> e.description == d.description)
      && (d.durationMs.Some? ==> e.durationMs == d.durationMs) && (d.priority.Some? ==> e.priority == d.priority)
  {
  }

  lemma MetadataDefaults(d: MetadataDict)
    ensures var m := MetadataFromDict(d);
      && (d.planId.None? ==> m.planId == "") && (d.version.None? ==> m.version == "1.0.0")
      && (d.schemaVersion.None? ==> m.schemaVersion == "1.0") && (d.estimatedCost.None? ==> m.estimatedCost == "{}")
      && (d.createdAt.None? ==> m.createdAt == "") && (d.createdBy.None? ==> m.createdBy == "brain.run_turn")
      && (d.targetNode.None? ==> m.targetNode == "") && (d.targetModel.None? ==> m.targetModel == "")
      && (d.approvalStatus.None? ==> m.approvalStatus == "pending")
      && (d.approvedBy.None? ==> m.approvedBy == "") && (d.approvedAt.None? ==> m.approvedAt == "")
    ensures var e := MetadataToDict(MetadataFromDict(d));
      && (d.planId.Some? ==> e.planId == d.planId) && (d.version.Some? ==> e.version == d.version)
      && (d.schemaVersion.Some? ==> e.schemaVersion == d.schemaVersion)
      && (d.estimatedCost.Some? ==> e.estimatedCost == d.estimatedCost)
      && (d.createdAt.Some? ==> e.createdAt == d.createdAt) && (d.createdBy.Some? ==> e.createdBy == d.createdBy)
      && (d.targetNode.Some? ==> e.targetNode == d.targetNode)
      && (d.targetModel.Some? ==> e.targetModel == d.targetModel)
      && (d.approvalStatus.Some? ==> e.approvalStatus == d.approvalStatus)
      && (d.approvedBy.Some? ==> e.approvedBy == d.approvedBy) && (d.approvedAt.Some? ==> e.approvedAt == d.approvedAt)
  {
  }

  /** Loading keeps what is there, fills in what is not, and signs what has no signature. */
  lemma LoadedFields(d: PlanDict, hash: PlanDict -> string)
    ensures var p := FromDict(d, hash);
      && |p.tasks| == (if d.tasks.Some? then |d.tasks.value| else 0)
      && (forall i :: 0 <= i < |p.tasks| ==> p.tasks[i] == TaskFromDict(d.tasks.value[i]))
      && p.dependencies == (if d.dependencies.Some? then d.dependencies.value else [])
      && p.metadata == MetadataFromDict(d.metadata)
      && p.signature == if d.signature.Some? && d.signature.value != "" then d.signature.value
                        else hash(CanonicalDict(p))
  {
    var p := FromDict(d, hash);
    assert CanonicalDict(p) == CanonicalDict(p.(signature := ""));
  }
}
