/** Plan artifacts as `remote_terminal/plan_artifact.py` holds them. Free-form fields are carried as texts. */
module PlanArtifacts {

  datatype Details = Details(
    capabilityId: string, params: string, outputSchema: string, description: string, durationMs: int, priority: int)

  datatype Task = Task(id: string, dependsOn: seq<string>, details: Details)

  /** One entry of `dependencies`: a blocked task and its blockers. */
  type Entry = (string, seq<string>)

  datatype Metadata = Metadata(
    planId: string, version: string, schemaVersion: string, estimatedCost: string, createdAt: string, createdBy: string,
    targetNode: string, targetModel: string, approvalStatus: string, approvedBy: string, approvedAt: string)

  /** `dependencies` is a dictionary in insertion order. */
  datatype Plan = Plan(tasks: seq<Task>, dependencies: seq<Entry>, metadata: Metadata, signature: string) {
    predicate Valid() { DistinctKeys(dependencies) }
  }

  predicate DistinctKeys(deps: seq<Entry>) {
    forall i, j :: 0 <= i < j < |deps| ==> deps[i].0 != deps[j].0
  }
}
