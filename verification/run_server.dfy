/**
  The Run API handlers. Each sequences validation, authorization and
  delegation to the resource manager; each stage short-circuits, and the
  trace records which collaborators were reached.
 */
module RunServer {
  import opened Api
  import opened Errors
  import opened Collaborators
  import opened Trace
  import opened Access
  import opened Validation

  /** A handler's `(response, error)` together with the calls it made. */
  datatype Reply<+T> = Reply(result: Result<T>, trace: seq<Call>)

  /** The per-item verdict of ReportRunMetrics: the (name, node id, error) triple. */
  datatype MetricResult = MetricResult(name: string, nodeId: string, outcome: Outcome)

  /** An `error` from a mutating engine call, answered with `&empty.Empty{}` when nil. */
  function Acknowledge(o: Outcome): Result<Empty> {
    match o
    case Pass => Success(Empty)
    case Fail(e) => Failure(e)
  }

  // ---------------------------------------------------------------------------
  // Single-run operations: canAccessRun, then one engine call.
  // ---------------------------------------------------------------------------

  /**
    The contract shared by GetRun, ArchiveRun, UnarchiveRun, DeleteRun,
    TerminateRun and RetryRun, where `engine` is what the resource manager
    answers for the operation `op`.
   */
  ghost predicate GuardedByRunAccess<T>(multiUser: bool, env: Env, caller: Caller, runId: string,
                                        op: EngineOp, engine: Result<T>, r: Reply<T>)
  {
    var permitted := RunAccessPermitted(multiUser, env, caller, runId);
    && Staged(r.trace)
    && FailClosed(multiUser, env, caller, r.trace)
    && OnlyEngineCall(r.trace, op)
    // the engine is reached exactly when access is permitted
    && (Engine(op) in r.trace <==> permitted)
    // its answer, error or not, is returned as is
    && (permitted ==> r.result == engine)
    // an authorization failure is wrapped with the request-level label
    && (!permitted ==>
          r.result == Failure(Wrapped(AuthorizeRequest, CanAccessRun(multiUser, env, caller, runId).outcome.error)))
    // single-user mode goes straight to the engine
    && (!multiUser ==> r == Reply(engine, [Engine(op)]))
    // a run without a namespace is an internal fault, not a denial
    && (multiUser && env.namespaceOfRun(runId) == Success("") ==>
          r.result.Failure? && Code(r.result.error) == InternalCode)
  }

  function DelegateAfterRunAccess<T>(multiUser: bool, env: Env, caller: Caller, runId: string,
                                     op: EngineOp, engine: Result<T>): (r: Reply<T>)
    ensures GuardedByRunAccess(multiUser, env, caller, runId, op, engine, r)
  {
    var access := CanAccessRun(multiUser, env, caller, runId);
    match access.outcome
    case Fail(e) =>
      assert Engine(op) !in access.trace by {
        assert InPhase(access.trace, AUTHORIZATION);
      }
      Reply(Failure(Wrapped(AuthorizeRequest, e)), access.trace)
    case Pass =>
      var trace := access.trace + [Engine(op)];
      assert GrantedBefore(env, caller, trace) || !multiUser by {
        if multiUser {
          forall k | 0 <= k < |trace| && trace[k].Engine?
            ensures exists j :: 0 <= j < k && Granted(env, caller, trace[j])
          {
            var j :| 0 <= j < |access.trace| && Granted(env, caller, access.trace[j]);
            assert trace[j] == access.trace[j];
          }
        }
      }
      Reply(engine, trace)
  }

  function GetRun(multiUser: bool, env: Env, caller: Caller, runId: string): (r: Reply<StoredRun>)
    ensures GuardedByRunAccess(multiUser, env, caller, runId, GetOp(runId), env.getRun(runId), r)
  {
    DelegateAfterRunAccess(multiUser, env, caller, runId, GetOp(runId), env.getRun(runId))
  }

  function ArchiveRun(multiUser: bool, env: Env, caller: Caller, runId: string): (r: Reply<Empty>)
    ensures GuardedByRunAccess(multiUser, env, caller, runId, ArchiveOp(runId), Acknowledge(env.archiveRun(runId)), r)
  {
    DelegateAfterRunAccess(multiUser, env, caller, runId, ArchiveOp(runId), Acknowledge(env.archiveRun(runId)))
  }

  function UnarchiveRun(multiUser: bool, env: Env, caller: Caller, runId: string): (r: Reply<Empty>)
    ensures GuardedByRunAccess(multiUser, env, caller, runId, UnarchiveOp(runId), Acknowledge(env.unarchiveRun(runId)), r)
  {
    DelegateAfterRunAccess(multiUser, env, caller, runId, UnarchiveOp(runId), Acknowledge(env.unarchiveRun(runId)))
  }

  function DeleteRun(multiUser: bool, env: Env, caller: Caller, runId: string): (r: Reply<Empty>)
    ensures GuardedByRunAccess(multiUser, env, caller, runId, DeleteOp(runId), Acknowledge(env.deleteRun(runId)), r)
  {
    DelegateAfterRunAccess(multiUser, env, caller, runId, DeleteOp(runId), Acknowledge(env.deleteRun(runId)))
  }

  function TerminateRun(multiUser: bool, env: Env, caller: Caller, runId: string): (r: Reply<Empty>)
    ensures GuardedByRunAccess(multiUser, env, caller, runId, TerminateOp(runId), Acknowledge(env.terminateRun(runId)), r)
  {
    DelegateAfterRunAccess(multiUser, env, caller, runId, TerminateOp(runId), Acknowledge(env.terminateRun(runId)))
  }

  function RetryRun(multiUser: bool, env: Env, caller: Caller, runId: string): (r: Reply<Empty>)
    ensures GuardedByRunAccess(multiUser, env, caller, runId, RetryOp(runId), Acknowledge(env.retryRun(runId)), r)
  {
    DelegateAfterRunAccess(multiUser, env, caller, runId, RetryOp(runId), Acknowledge(env.retryRun(runId)))
  }

  // ---------------------------------------------------------------------------
  // CreateRun: validate, authorize against the references, create.
  // ---------------------------------------------------------------------------

  predicate ReferencesAccessible(env: Env, caller: Caller, run: Run) {
    env.canAccessExperimentInReferences(caller, run.resourceReferences).Pass?
  }

  function CreateRun(env: Env, caller: Caller, run: Run): (r: Reply<StoredRun>)
    ensures Staged(r.trace) && GrantedBefore(env, caller, r.trace) && OnlyEngineCall(r.trace, CreateOp)
    ensures Engine(CreateOp) in r.trace <==> CreateRequestValid(env, run) && ReferencesAccessible(env, caller, run)
    ensures r.result.Success? <==>
      CreateRequestValid(env, run) && ReferencesAccessible(env, caller, run) && env.createRun(run).Success?
    ensures r.result.Success? ==> r.result.value == env.createRun(run).value
    // a validation failure stops before authorization
    ensures !CreateRequestValid(env, run) ==>
      && r.result == Failure(Wrapped(ValidateCreateRun, ValidateCreateRunRequest(env, run).outcome.error))
      && InPhase(r.trace, VALIDATION)
    ensures CreateRequestValid(env, run) && !ReferencesAccessible(env, caller, run) ==>
      r.result == Failure(Wrapped(AuthorizeRequest, env.canAccessExperimentInReferences(caller, run.resourceReferences).error))
    ensures CreateRequestValid(env, run) && ReferencesAccessible(env, caller, run) && env.createRun(run).Failure? ==>
      r.result == Failure(Wrapped(CreateRunEngine, env.createRun(run).error))
  {
    var validation := ValidateCreateRunRequest(env, run);
    match validation.outcome
    case Fail(e) =>
      ValidationOnly(true, env, caller, validation.trace, CreateOp);
      Reply(Failure(Wrapped(ValidateCreateRun, e)), validation.trace)
    case Pass =>
      var authorize := [AuthorizeReferences(run.resourceReferences)];
      AuthorizedDelegation(true, env, caller, authorize, CreateOp);
      match env.canAccessExperimentInReferences(caller, run.resourceReferences)
      case Fail(e) =>
        ValidationPrefix(true, env, caller, validation.trace, authorize, CreateOp);
        Reply(Failure(Wrapped(AuthorizeRequest, e)), validation.trace + authorize)
      case Pass =>
        var full := validation.trace + (authorize + [Engine(CreateOp)]);
        ValidationPrefix(true, env, caller, validation.trace, authorize + [Engine(CreateOp)], CreateOp);
        match env.createRun(run)
        case Failure(e) => Reply(Failure(Wrapped(CreateRunEngine, e)), full)
        case Success(created) => Reply(Success(created), full)
  }

  // ---------------------------------------------------------------------------
  // ListRuns: list options, filter, multi-user scope check, list.
  // ---------------------------------------------------------------------------

  /** The listing reaches the engine: options and filter valid, scope permitted. */
  predicate ListingAdmitted(multiUser: bool, env: Env, caller: Caller, request: ListRunsRequest) {
    var opts := env.listOptions(request.pageToken, request.pageSize, request.sortBy, request.filter);
    var filter := env.validateFilter(request.resourceReferenceKey);
    opts.Success? && filter.Success? && ListScopePermitted(multiUser, env, caller, filter.value.referenceKey)
  }

  function ListRuns(multiUser: bool, env: Env, caller: Caller, request: ListRunsRequest): (r: Reply<RunPage>)
    ensures Staged(r.trace) && FailClosed(multiUser, env, caller, r.trace) && OnlyEngineCall(r.trace, ListOp)
    ensures Engine(ListOp) in r.trace <==> ListingAdmitted(multiUser, env, caller, request)
    // single-user mode authorizes nothing
    ensures !multiUser ==> Skips(r.trace, AUTHORIZATION)
    ensures
      var opts := env.listOptions(request.pageToken, request.pageSize, request.sortBy, request.filter);
      opts.Failure? ==> r == Reply(Failure(Wrapped(ListOptionsStage, opts.error)), [BuildListOptions])
    ensures
      var opts := env.listOptions(request.pageToken, request.pageSize, request.sortBy, request.filter);
      var filter := env.validateFilter(request.resourceReferenceKey);
      opts.Success? && filter.Failure? ==>
        r == Reply(Failure(Wrapped(FilterStage, filter.error)), [BuildListOptions, CheckFilter])
    ensures
      var opts := env.listOptions(request.pageToken, request.pageSize, request.sortBy, request.filter);
      var filter := env.validateFilter(request.resourceReferenceKey);
      multiUser && opts.Success? && filter.Success? && filter.value.referenceKey.None? ==>
        r == Reply(Failure(InvalidInput(ReferenceKeyMissing)), [BuildListOptions, CheckFilter])
    ensures
      var opts := env.listOptions(request.pageToken, request.pageSize, request.sortBy, request.filter);
      var filter := env.validateFilter(request.resourceReferenceKey);
      multiUser && opts.Success? && filter.Success? && filter.value.referenceKey.Some?
        && MalformedScope(filter.value.referenceKey.value) ==>
        && r.result.Failure? && Code(r.result.error) == InvalidInputCode
        && InPhase(r.trace, VALIDATION)
    // a refused scope answers the scope check's own error, and nothing else is called
    ensures
      var opts := env.listOptions(request.pageToken, request.pageSize, request.sortBy, request.filter);
      var filter := env.validateFilter(request.resourceReferenceKey);
      opts.Success? && filter.Success? && !ListScopePermitted(multiUser, env, caller, filter.value.referenceKey) ==>
        var scope := AuthorizeListScope(multiUser, env, caller, filter.value.referenceKey, request.resourceReferenceKey);
        r == Reply(Failure(scope.outcome.error), [BuildListOptions, CheckFilter] + scope.trace)
    ensures
      var opts := env.listOptions(request.pageToken, request.pageSize, request.sortBy, request.filter);
      var filter := env.validateFilter(request.resourceReferenceKey);
      ListingAdmitted(multiUser, env, caller, request) ==>
        var page := env.listRuns(filter.value, opts.value);
        && (page.Success? ==> r.result == page)
        && (page.Failure? ==> r.result == Failure(Wrapped(ListRunsEngine, page.error)))
  {
    match env.listOptions(request.pageToken, request.pageSize, request.sortBy, request.filter)
    case Failure(e) =>
      ValidationOnly(multiUser, env, caller, [BuildListOptions], ListOp);
      Reply(Failure(Wrapped(ListOptionsStage, e)), [BuildListOptions])
    case Success(opts) =>
      match env.validateFilter(request.resourceReferenceKey)
      case Failure(e) =>
        ValidationOnly(multiUser, env, caller, [BuildListOptions, CheckFilter], ListOp);
        Reply(Failure(Wrapped(FilterStage, e)), [BuildListOptions, CheckFilter])
      case Success(filterContext) =>
        var scoped := ListInScope(multiUser, env, caller, filterContext, opts, request.resourceReferenceKey);
        ValidationPrefix(multiUser, env, caller, [BuildListOptions, CheckFilter], scoped.trace, ListOp);
        Reply(scoped.result, [BuildListOptions, CheckFilter] + scoped.trace)
  }

  /** The part of ListRuns after the filter context is built: the scope check, then the listing. */
  function ListInScope(multiUser: bool, env: Env, caller: Caller, filterContext: FilterContext,
                       opts: ListOptions, requestKey: Option<ReferenceKey>): (r: Reply<RunPage>)
    ensures Staged(r.trace) && FailClosed(multiUser, env, caller, r.trace) && OnlyEngineCall(r.trace, ListOp)
    ensures !multiUser ==> r.trace == [Engine(ListOp)] && Skips(r.trace, AUTHORIZATION)
    ensures Engine(ListOp) in r.trace <==> ListScopePermitted(multiUser, env, caller, filterContext.referenceKey)
    ensures multiUser && filterContext.referenceKey.None? ==> r == Reply(Failure(InvalidInput(ReferenceKeyMissing)), [])
    ensures multiUser && filterContext.referenceKey.Some? && MalformedScope(filterContext.referenceKey.value) ==>
      r.result.Failure? && Code(r.result.error) == InvalidInputCode && r.trace == []
    ensures !ListScopePermitted(multiUser, env, caller, filterContext.referenceKey) ==>
      var scope := AuthorizeListScope(multiUser, env, caller, filterContext.referenceKey, requestKey);
      r == Reply(Failure(scope.outcome.error), scope.trace)
    ensures ListScopePermitted(multiUser, env, caller, filterContext.referenceKey) ==>
      var page := env.listRuns(filterContext, opts);
      && (page.Success? ==> r.result == page)
      && (page.Failure? ==> r.result == Failure(Wrapped(ListRunsEngine, page.error)))
  {
    var scope := AuthorizeListScope(multiUser, env, caller, filterContext.referenceKey, requestKey);
    AuthorizedDelegation(multiUser, env, caller, scope.trace, ListOp);
    match scope.outcome
    case Fail(e) => Reply(Failure(e), scope.trace)
    case Pass =>
      var full := scope.trace + [Engine(ListOp)];
      match env.listRuns(filterContext, opts)
      case Failure(e) => Reply(Failure(Wrapped(ListRunsEngine, e)), full)
      case Success(page) => Reply(Success(page), full)
  }

  /**
    Two listings whose filter contexts differ only in the spelling of the
    experiment type make the same calls, and agree on every outcome that
    does not come from the engine.
   */
  lemma ListRunsLegacyAlias(multiUser: bool, env: Env, caller: Caller,
                            legacy: ListRunsRequest, current: ListRunsRequest, experimentId: string)
    requires (legacy.pageToken, legacy.pageSize, legacy.sortBy, legacy.filter)
          == (current.pageToken, current.pageSize, current.sortBy, current.filter)
    requires env.validateFilter(legacy.resourceReferenceKey)
          == Success(FilterContext(Some(ReferenceKey(EXPERIMENT_UUID_TYPE, experimentId))))
    requires env.validateFilter(current.resourceReferenceKey)
          == Success(FilterContext(Some(ReferenceKey(EXPERIMENT_TYPE, experimentId))))
    ensures ListRuns(multiUser, env, caller, legacy).trace == ListRuns(multiUser, env, caller, current).trace
    ensures ListingAdmitted(multiUser, env, caller, legacy) <==> ListingAdmitted(multiUser, env, caller, current)
    ensures !ListingAdmitted(multiUser, env, caller, legacy) ==>
      ListRuns(multiUser, env, caller, legacy).result == ListRuns(multiUser, env, caller, current).result
  {
  }

  // ---------------------------------------------------------------------------
  // ReportRunMetrics: the run must exist; then every metric independently.
  // ---------------------------------------------------------------------------

  /** Result `res` is the verdict on metric `m` at position `i`: validation first, reporting only if it passed. */
  predicate ItemReported(env: Env, runId: string, i: nat, m: RunMetric, res: MetricResult) {
    && res.name == m.name
    && res.nodeId == m.nodeId
    && (env.validateRunMetric(m).Fail? ==> res.outcome == env.validateRunMetric(m))
    && (env.validateRunMetric(m).Pass? ==> res.outcome == env.reportMetric(i, m, runId))
  }

  /** A call the batch loop makes on behalf of one of the first `n` metrics. */
  predicate BatchCall(c: Call, n: nat) {
    || (c.CheckMetric? && c.index < n)
    || (c.Engine? && c.op.ReportMetricOp? && c.op.index < n)
  }

  /** The metric a batch call is about, and -1 for any other call. */
  function MetricIndex(c: Call): int {
    match c
    case CheckMetric(i) => i
    case Engine(ReportMetricOp(i)) => i
    case _ => -1
  }

  /** The calls the loop makes for metric `i`: validate it, and report it only if valid. */
  function ItemCalls(env: Env, m: RunMetric, i: nat): seq<Call> {
    if env.validateRunMetric(m).Pass? then [CheckMetric(i), Engine(ReportMetricOp(i))] else [CheckMetric(i)]
  }

  /** The shape of the ReportRunMetrics trace once the first `n` metrics are handled. */
  predicate BatchTrace(env: Env, runId: string, metrics: seq<RunMetric>, trace: seq<Call>, n: nat) {
    && 0 < |trace| && trace[0] == Engine(GetOp(runId))
    // no call is made twice: each metric is validated once and reported at most once
    && (forall k, l :: 0 <= k < l < |trace| ==> trace[k] != trace[l])
    && (forall k :: 0 < k < |trace| ==> BatchCall(trace[k], n))
    && (forall j :: 0 <= j < n ==> CheckMetric(j) in trace)
    && (forall j :: 0 <= j < n && j < |metrics| ==>
          (Engine(ReportMetricOp(j)) in trace <==> env.validateRunMetric(metrics[j]).Pass?))
    // metrics are handled one after another, in input order
    && (forall k, l :: 0 < k < l < |trace| ==> MetricIndex(trace[k]) <= MetricIndex(trace[l]))
    // a metric is reported right after it passed validation
    && (forall k :: 0 < k < |trace| && trace[k].Engine? && trace[k].op.ReportMetricOp? ==>
          trace[k - 1] == CheckMetric(trace[k].op.index))
  }

  lemma {:induction false} BatchTraceStep(env: Env, runId: string, metrics: seq<RunMetric>, trace: seq<Call>, i: nat)
    requires i < |metrics| && BatchTrace(env, runId, metrics, trace, i)
    ensures BatchTrace(env, runId, metrics, trace + ItemCalls(env, metrics[i], i), i + 1)
  {
    var calls := ItemCalls(env, metrics[i], i);
    var next := trace + calls;
    forall k | 0 < k < |next|
      ensures BatchCall(next[k], i + 1)
      ensures MetricIndex(next[k]) <= i
      ensures k >= |trace| ==> MetricIndex(next[k]) == i
    {
      if k < |trace| {
        assert next[k] == trace[k];
      }
    }
    forall j | 0 <= j < i + 1 && j < |metrics|
      ensures CheckMetric(j) in next
      ensures Engine(ReportMetricOp(j)) in next <==> env.validateRunMetric(metrics[j]).Pass?
    {
      if j < i {
        assert CheckMetric(j) in trace;
        assert Engine(ReportMetricOp(j)) !in calls;
      } else {
        assert next[|trace|] == CheckMetric(i);
        if env.validateRunMetric(metrics[i]).Pass? {
          assert next[|trace| + 1] == Engine(ReportMetricOp(i));
        } else {
          assert Engine(ReportMetricOp(i)) !in trace;
        }
      }
    }
    forall k, l | 0 < k < l < |next|
      ensures MetricIndex(next[k]) <= MetricIndex(next[l])
    {
      if l < |trace| {
        assert next[k] == trace[k] && next[l] == trace[l];
      } else if k < |trace| {
        assert next[k] == trace[k];
        assert BatchCall(trace[k], i);
      }
    }
    forall k | 0 < k < |next| && next[k].Engine? && next[k].op.ReportMetricOp?
      ensures next[k - 1] == CheckMetric(next[k].op.index)
    {
      if k < |trace| {
        assert next[k] == trace[k] && next[k - 1] == trace[k - 1];
      }
    }
  }

  method ReportRunMetrics(env: Env, runId: string, metrics: seq<RunMetric>) returns (r: Reply<seq<MetricResult>>)
    // the run lookup comes first, and no authorization precedes it
    ensures 0 < |r.trace| && r.trace[0] == Engine(GetOp(runId))
    ensures env.getRun(runId).Failure? ==> r == Reply(Failure(env.getRun(runId).error), [Engine(GetOp(runId))])
    ensures env.getRun(runId).Success? ==> r.result.Success? && |r.result.value| == |metrics|
    ensures env.getRun(runId).Success? ==>
      forall i :: 0 <= i < |metrics| ==> ItemReported(env, runId, i, metrics[i], r.result.value[i])
    ensures env.getRun(runId).Success? ==> BatchTrace(env, runId, metrics, r.trace, |metrics|)
  {
    var trace := [Engine(GetOp(runId))];
    var run := env.getRun(runId);
    if run.Failure? {
      return Reply(Failure(run.error), trace);
    }
    var results: seq<MetricResult> := [];
    var i := 0;
    while i < |metrics|
      invariant 0 <= i <= |metrics|
      invariant |results| == i
      invariant forall j :: 0 <= j < i ==> ItemReported(env, runId, j, metrics[j], results[j])
      invariant BatchTrace(env, runId, metrics, trace, i)
    {
      var metric := metrics[i];
      var err := env.validateRunMetric(metric);
      if err.Pass? {
        err := env.reportMetric(i, metric, runId);
      }
      results := results + [MetricResult(metric.name, metric.nodeId, err)];
      BatchTraceStep(env, runId, metrics, trace, i);
      trace := trace + ItemCalls(env, metric, i);
      i := i + 1;
    }
    r := Reply(Success(results), trace);
  }
}
