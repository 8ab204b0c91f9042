# Run API handler: request orchestration

A Dafny model of the Run service handler of the pipelines API server
(`backend/src/apiserver/server/run_server.go`). The handler is a thin layer
over a resource manager; what it decides on its own is

- which stages a request passes through, and in which order: validate the
  request, then authorize the caller, then delegate to the resource manager,
  each stage stopping the request on failure;
- how a caller is authorized: `canAccessRun` resolves a run's namespace and
  asks the authorizer, and ListRuns in multi-user mode insists on a
  `Namespace` or `Experiment` reference key (with the legacy `ExperimentUUID`
  spelling treated as `Experiment`);
- the pipeline-spec / pipeline-version fallback of CreateRun validation;
- the ReportRunMetrics batch, which fails as a whole only when the run does
  not exist and otherwise answers one result per metric, in order.

Every collaborator (validators, authorizer, resource manager) is a total
function field of `Collaborators.Env`; the multi-user flag is an explicit
`multiUser` parameter. Each handler returns its `(response, error)` pair
together with a trace of the collaborator calls it made (`Trace.Call`), so
that "the engine is never reached" is the statement `Engine(op) !in trace`.
`Trace.Staged` says validation, authorization and delegation calls never go
backwards; `Trace.FailClosed` says that in multi-user mode every engine call
is preceded by an authorization call that granted access;
`Trace.OnlyEngineCall` says a handler calls the resource manager at most
once, for its own operation, as its last call.

Errors are the tagged datatype `Errors.Err`: `InvalidInput` and `Internal`
for the errors the handler creates, `Opaque` for a collaborator's error, and
`Wrapped(stage, inner)` for `util.Wrap`, whose stage names the context label
added. `Errors.Code` reads the error code through any number of wraps.

Files: `api.dfy` (request and response values), `errors.dfy`,
`collaborators.dfy`, `trace.dfy`, `access.dfy` (`canAccessRun` and the
ListRuns reference check), `validation.dfy` (`validateCreateRunRequest`),
`run_server.dfy` (the handlers).

Behaviour of the code worth noting:

- CreateRun and ListRuns wrap the resource manager's error ("Failed to create
  a new run.", "Failed to list runs."); only the single-run handlers return
  the engine's error unwrapped.
- When neither the pipeline spec nor the version reference is valid, the
  error is the spec error wrapped with a message naming the version error, so
  its code is the spec error's code, not necessarily invalid input.
- CreateRun authorizes only after validation has passed; a request that fails
  validation never reaches the authorizer.
- ReportRunMetrics performs no authorization at all; it only checks that the
  run exists (its first trace entry is the engine's `GetRun`).

## Model

| member | source | states |
|---|---|---|
| Access.CanAccessRun | backend/src/apiserver/server/run_server.go:217-235 | access is granted exactly when the mode is single-user, or the run's namespace resolves, is non-empty and is authorized; single-user mode calls nothing; a lookup error is wrapped with its own label after the lookup alone; an authorizer error is wrapped with its own label after exactly the lookup and that authorizer call; an empty namespace is an internal error and the authorizer is never asked |
| Access.AuthorizeListScope | backend/src/apiserver/server/run_server.go:73-100 | the multi-user reference check passes exactly when the key is present, has a non-empty id, and is an authorized namespace or an accessible experiment of either spelling; a missing key, an empty id or another type is invalid input with no call made; a denial by the authorizer or the experiment check is that error wrapped with the branch's own label, after exactly that call; a pass in multi-user mode rests on one granting call |
| Access.LegacyExperimentAlias | backend/src/apiserver/server/run_server.go:87-96 | the `ExperimentUUID` type takes exactly the path of the `Experiment` type: same outcome, same calls |
| Validation.ValidateCreateRunRequest | backend/src/apiserver/server/run_server.go:177-190 | the request is valid exactly when the name is non-empty and the spec or the version reference is valid; an empty name is invalid input before any check; a valid spec never consults the version reference; when both fail the error wraps the spec error and carries the version error, keeping the spec error's code |
| RunServer.CreateRun | backend/src/apiserver/server/run_server.go:33-48 | calls are staged; creation happens exactly when validation and reference authorization pass, only after a granting call, and is the only resource-manager call, made last; a validation failure stops before authorization; each failure carries its stage label; success returns the created run |
| RunServer.GetRun | backend/src/apiserver/server/run_server.go:50-60 | the engine's GetRun is reached exactly when run access is permitted, only after a grant in multi-user mode, and is the only engine call, made last; its answer is returned as is; an access failure is wrapped; single-user mode goes straight to the engine; an empty namespace is an internal error |
| RunServer.ArchiveRun | backend/src/apiserver/server/run_server.go:109-119 | as GetRun, for the engine's ArchiveRun, answering the empty acknowledgment |
| RunServer.UnarchiveRun | backend/src/apiserver/server/run_server.go:121-131 | as GetRun, for the engine's UnarchiveRun |
| RunServer.DeleteRun | backend/src/apiserver/server/run_server.go:133-143 | as GetRun, for the engine's DeleteRun |
| RunServer.TerminateRun | backend/src/apiserver/server/run_server.go:192-202 | as GetRun, for the engine's TerminateRun |
| RunServer.RetryRun | backend/src/apiserver/server/run_server.go:204-215 | as GetRun, for the engine's RetryRun |
| RunServer.ListRuns | backend/src/apiserver/server/run_server.go:62-107 | calls are staged and fail closed; the engine's listing is the only engine call, made last, and is reached exactly when list options and filter are valid and the scope is permitted; an options or filter error returns before any authorization; single-user mode authorizes nothing; a missing key or a malformed one in multi-user mode is invalid input; a refused scope returns the scope check's error with no engine call; the engine's page is returned unchanged and its error wrapped |
| RunServer.ListRunsLegacyAlias | backend/src/apiserver/server/run_server.go:87-96 | two listings whose filter contexts differ only in `Experiment` versus `ExperimentUUID` make the same calls, are admitted alike, and fail alike before the engine |
| RunServer.ReportRunMetrics | backend/src/apiserver/server/run_server.go:145-164 | a missing run fails the call with the lookup's own error and nothing else is called; otherwise the call succeeds with one result per metric, result i carrying metric i's name and node id and its validation error, or else the outcome of reporting it at position i; every metric is validated once, reported once if valid and never otherwise, right after its validation, in input order, with no call repeated |
| RunServer.BatchTraceStep | backend/src/apiserver/server/run_server.go:154-162 | handling one more metric keeps the batch trace in shape: every earlier metric still validated, reported exactly when valid, in input order, with no call made twice |
| RunServer.ListInScope | backend/src/apiserver/server/run_server.go:73-104 | after a valid filter: the listing is reached exactly when the scope is permitted, as the only engine call and after a grant in multi-user mode; single-user mode lists straight away; a missing or malformed key is invalid input with no call; a refused scope answers the scope check's own error and calls; the page is returned unchanged and its error wrapped |

## Left out

- `ReadArtifact`: a single delegation whose error is wrapped; it has no decision logic.
- `NewRunServer`: the constructor only stores the resource manager.
- The implementations of `validatedListOptions`, `ValidateFilter`, `isAuthorized`,
  `CanAccessExperiment`, `CanAccessExperimentInResourceReferences`,
  `ValidatePipelineSpec`, `CheckPipelineVersionReference`, `ValidateRunMetric` and of the
  resource manager: they are not part of this model and appear as the function fields of `Env`.
- The pipeline version id returned by `CheckPipelineVersionReference`: the handler discards it.
- `common.IsMultiUserMode()`: read from process-wide state in the code, here the `multiUser` parameter.
- `context.Context`: only the caller identity it carries is kept (`Caller`), passed to the authorizer.
- Conversion to API messages (`ToApiRunDetail`, `ToApiRuns`, the status mapping inside
  `NewReportRunMetricResult`) and the `int32` conversion of the total size: serialization glue.
- Message texts of `util.Wrap` and of the invalid-input errors: each is named by a `Stage` or `Message` constructor.
- The metric value is a double in the code and a `real` here; no floating-point behaviour is modelled.
- RunServer.CreateRun: a request that carries no run at all is not modelled; the code reads `request.Run.Name` without a nil check and would dereference nil, so the model's request always holds a run (the same holds for Validation.ValidateCreateRunRequest).
- RunServer.ReportRunMetrics: the resource manager's stored state is not modelled; the outcome of reporting a metric is a function of its position in the request, the metric and the run id, which lets later reports differ from earlier ones but does not relate them to what was reported before.
