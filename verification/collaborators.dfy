/**
  The collaborators the Run handler calls but whose code is not part of
  this model: the validators, the authorizer and the resource manager.
  Each is a total function of its inputs, so a handler is a pure function
  of the request and of these oracles.
 */
module Collaborators {
  import opened Api
  import opened Errors

  datatype Env = Env(
    /** Turns the page token, page size, sort field and filter of a listing into list options, or rejects them. */
    listOptions: (string, int, string, string) -> Result<ListOptions>,
    /** Turns the request's reference key into the filter context, or rejects it. */
    validateFilter: Option<ReferenceKey> -> Result<FilterContext>,
    /** Whether the caller may act in the given namespace. */
    isAuthorized: (Caller, string) -> Outcome,
    /** Whether the caller may access the experiment with the given id. */
    canAccessExperiment: (Caller, string) -> Outcome,
    /** Whether the caller may access the experiment named among a run's resource references. */
    canAccessExperimentInReferences: (Caller, seq<ResourceReference>) -> Outcome,
    /** Whether a pipeline spec is a usable execution definition. */
    validatePipelineSpec: PipelineSpec -> Outcome,
    /** Whether the resource references name a usable pipeline version (the version id itself is not kept). */
    checkPipelineVersionReference: seq<ResourceReference> -> Outcome,
    /** Whether a metric item is well formed. */
    validateRunMetric: RunMetric -> Outcome,
    /** The resource manager's answer to "which namespace owns this run?". */
    namespaceOfRun: string -> Result<string>,
    /** The resource manager creating a run, fetching one, and listing a page of runs. */
    createRun: Run -> Result<StoredRun>,
    getRun: string -> Result<StoredRun>,
    listRuns: (FilterContext, ListOptions) -> Result<RunPage>,
    /** The resource manager's mutating single-run operations, by run id. */
    archiveRun: string -> Outcome,
    unarchiveRun: string -> Outcome,
    deleteRun: string -> Outcome,
    terminateRun: string -> Outcome,
    retryRun: string -> Outcome,
    /**
      The resource manager storing a metric of a run. Reporting stores the
      metric, so the answer may depend on what the same request reported
      before; the position of the metric in the request stands for that
      state, and a metric repeated in one request may be answered differently.
     */
    reportMetric: (nat, RunMetric, string) -> Outcome
  )
}
