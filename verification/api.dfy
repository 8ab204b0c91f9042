/**
  Request and response values of the Run API, reduced to the fields the
  handler's decision logic reads. Everything here is an immutable,
  request-scoped value.
 */
module Api {

  datatype Option<+T> = None | Some(value: T)

  /** The resource types the handler compares a reference key against. */
  const NAMESPACE_TYPE: string := "Namespace"
  const EXPERIMENT_TYPE: string := "Experiment"
  /** Legacy alias of EXPERIMENT_TYPE, accepted for backward compatibility. */
  const EXPERIMENT_UUID_TYPE: string := "ExperimentUUID"

  /** A typed pointer to a resource, the `ReferenceKey` of a filter context. */
  datatype ReferenceKey = ReferenceKey(refType: string, id: string)

  predicate IsNamespaceType(t: string) {
    t == NAMESPACE_TYPE
  }

  /** Both spellings of the experiment type select the same branch. */
  predicate IsExperimentType(t: string) {
    t == EXPERIMENT_TYPE || t == EXPERIMENT_UUID_TYPE
  }

  datatype Relationship = UnknownRelationship | Owner | Creator

  datatype ResourceReference = ResourceReference(key: ReferenceKey, relationship: Relationship)

  /** The pipeline definition embedded in a run (opaque to this layer). */
  datatype PipelineSpec = PipelineSpec(pipelineId: string, workflowManifest: string, pipelineManifest: string)

  /** The run a caller asks to create. */
  datatype Run = Run(name: string, pipelineSpec: PipelineSpec, resourceReferences: seq<ResourceReference>)

  /** A run as the resource manager stores and returns it (opaque beyond its id). */
  datatype StoredRun = StoredRun(id: string, name: string)

  datatype ListRunsRequest = ListRunsRequest(
    pageToken: string,
    pageSize: int,
    sortBy: string,
    filter: string,
    resourceReferenceKey: Option<ReferenceKey>)

  /** The validated pagination, sorting and filtering criteria. */
  datatype ListOptions = ListOptions(pageSize: int, sortByField: string, filterExpression: string)

  /** Carries at most one reference used to scope the listing. */
  datatype FilterContext = FilterContext(referenceKey: Option<ReferenceKey>)

  /** One page of runs with the total count and the token of the next page. */
  datatype RunPage = RunPage(runs: seq<StoredRun>, totalSize: int, nextPageToken: string)

  datatype MetricFormat = UnspecifiedFormat | Raw | Percentage

  /** One metric item of a ReportRunMetrics request; `value` stands for a double. */
  datatype RunMetric = RunMetric(name: string, nodeId: string, value: real, format: MetricFormat)

  /** The caller identity carried by the request context; only the authorizer looks inside. */
  datatype Caller = Caller(identity: string)

  /** The empty acknowledgment of the mutating single-run operations. */
  datatype Empty = Empty
}
