/**
  Access resolution: `canAccessRun` for the single-run operations and the
  multi-user reference check of ListRuns.
 */
module Access {
  import opened Api
  import opened Errors
  import opened Collaborators
  import opened Trace

  /** An error-or-nil outcome together with the calls made to reach it. */
  datatype Check = Check(outcome: Outcome, trace: seq<Call>)

  /**
    When a caller may touch a run: always in single-user mode; otherwise
    the run's namespace must resolve, be non-empty and be authorized.
   */
  predicate RunAccessPermitted(multiUser: bool, env: Env, caller: Caller, runId: string) {
    !multiUser ||
    (var ns := env.namespaceOfRun(runId);
     ns.Success? && ns.value != "" && env.isAuthorized(caller, ns.value).Pass?)
  }

  /** canAccessRun(ctx, runId) */
  function CanAccessRun(multiUser: bool, env: Env, caller: Caller, runId: string): (r: Check)
    ensures r.outcome.Pass? <==> RunAccessPermitted(multiUser, env, caller, runId)
    ensures InPhase(r.trace, AUTHORIZATION)
    ensures !multiUser ==> r.trace == []
    ensures multiUser ==> 0 < |r.trace| && r.trace[0] == LookupNamespace(runId)
    ensures multiUser && r.outcome.Pass? ==> exists k :: 0 <= k < |r.trace| && Granted(env, caller, r.trace[k])
    ensures multiUser && env.namespaceOfRun(runId).Failure? ==>
      r == Check(Fail(Wrapped(RunIdLookup, env.namespaceOfRun(runId).error)), [LookupNamespace(runId)])
    ensures multiUser && env.namespaceOfRun(runId) == Success("") ==>
      && r.outcome == Fail(Internal(NoNamespaceFound))
      && Code(r.outcome.error) == InternalCode
      && r.trace == [LookupNamespace(runId)]
    ensures multiUser && env.namespaceOfRun(runId).Success? && env.namespaceOfRun(runId).value != ""
            && env.isAuthorized(caller, env.namespaceOfRun(runId).value).Fail? ==>
      r == Check(Fail(Wrapped(ApiReferenceAuth, env.isAuthorized(caller, env.namespaceOfRun(runId).value).error)),
                 [LookupNamespace(runId), AuthorizeNamespace(env.namespaceOfRun(runId).value)])
  {
    if !multiUser then
      Check(Pass, [])
    else
      match env.namespaceOfRun(runId)
      case Failure(e) => Check(Fail(Wrapped(RunIdLookup, e)), [LookupNamespace(runId)])
      case Success(ns) =>
        if |ns| == 0 then
          Check(Fail(Internal(NoNamespaceFound)), [LookupNamespace(runId)])
        else
          var trace := [LookupNamespace(runId), AuthorizeNamespace(ns)];
          match env.isAuthorized(caller, ns)
          case Fail(e) => Check(Fail(Wrapped(ApiReferenceAuth, e)), trace)
          case Pass =>
            assert Granted(env, caller, trace[1]);
            Check(Pass, trace)
  }

  /**
    When ListRuns may proceed past authorization: always in single-user
    mode; otherwise the scoping key must be present with a non-empty id,
    and be either an authorized namespace or an accessible experiment
    (under either spelling of the experiment type).
   */
  predicate ListScopePermitted(multiUser: bool, env: Env, caller: Caller, key: Option<ReferenceKey>) {
    !multiUser ||
    (key.Some? && key.value.id != "" &&
     ((IsNamespaceType(key.value.refType) && env.isAuthorized(caller, key.value.id).Pass?) ||
      (IsExperimentType(key.value.refType) && env.canAccessExperiment(caller, key.value.id).Pass?)))
  }

  /** A scoping key ListRuns rejects as invalid input before asking anyone. */
  predicate MalformedScope(key: ReferenceKey) {
    key.id == "" || !(IsNamespaceType(key.refType) || IsExperimentType(key.refType))
  }

  /**
    The multi-user branch of ListRuns. `key` is the filter context's
    reference key, on which the decision rests; `requestKey` is the key as
    the request carried it, quoted in the error for an unsupported type.
   */
  function AuthorizeListScope(multiUser: bool, env: Env, caller: Caller,
                              key: Option<ReferenceKey>, requestKey: Option<ReferenceKey>): (r: Check)
    ensures r.outcome.Pass? <==> ListScopePermitted(multiUser, env, caller, key)
    ensures InPhase(r.trace, AUTHORIZATION) && |r.trace| <= 1
    ensures !multiUser ==> r.trace == []
    ensures multiUser && r.outcome.Pass? ==> |r.trace| == 1 && Granted(env, caller, r.trace[0])
    ensures multiUser && key.None? ==> r == Check(Fail(InvalidInput(ReferenceKeyMissing)), [])
    ensures multiUser && key.Some? && MalformedScope(key.value) ==>
      r.outcome.Fail? && Code(r.outcome.error) == InvalidInputCode && r.trace == []
    ensures multiUser && key.Some? && !IsNamespaceType(key.value.refType) && !IsExperimentType(key.value.refType) ==>
      r.outcome == Fail(InvalidInput(UnsupportedReference(requestKey)))
    ensures multiUser && key.Some? && key.value.id == "" && IsNamespaceType(key.value.refType) ==>
      r == Check(Fail(InvalidInput(NamespaceIdEmpty)), [])
    ensures multiUser && key.Some? && key.value.id == "" && IsExperimentType(key.value.refType) ==>
      r == Check(Fail(InvalidInput(ExperimentIdEmpty)), [])
    // a denial is the authorizer's own error, wrapped with the branch's label, after the call
    ensures multiUser && key.Some? && key.value.id != "" && IsNamespaceType(key.value.refType)
            && env.isAuthorized(caller, key.value.id).Fail? ==>
      r == Check(Fail(Wrapped(NamespaceReferenceAuth, env.isAuthorized(caller, key.value.id).error)),
                 [AuthorizeNamespace(key.value.id)])
    ensures multiUser && key.Some? && key.value.id != "" && IsExperimentType(key.value.refType)
            && env.canAccessExperiment(caller, key.value.id).Fail? ==>
      r == Check(Fail(Wrapped(ExperimentReferenceAuth, env.canAccessExperiment(caller, key.value.id).error)),
                 [AuthorizeExperiment(key.value.id)])
  {
    if !multiUser then
      Check(Pass, [])
    else if key.None? then
      Check(Fail(InvalidInput(ReferenceKeyMissing)), [])
    else if key.value.refType == NAMESPACE_TYPE then
      var namespace := key.value.id;
      if |namespace| == 0 then
        Check(Fail(InvalidInput(NamespaceIdEmpty)), [])
      else
        match env.isAuthorized(caller, namespace)
        case Fail(e) => Check(Fail(Wrapped(NamespaceReferenceAuth, e)), [AuthorizeNamespace(namespace)])
        case Pass => Check(Pass, [AuthorizeNamespace(namespace)])
    else if key.value.refType == EXPERIMENT_TYPE || key.value.refType == EXPERIMENT_UUID_TYPE then
      var experimentId := key.value.id;
      if |experimentId| == 0 then
        Check(Fail(InvalidInput(ExperimentIdEmpty)), [])
      else
        match env.canAccessExperiment(caller, experimentId)
        case Fail(e) => Check(Fail(Wrapped(ExperimentReferenceAuth, e)), [AuthorizeExperiment(experimentId)])
        case Pass => Check(Pass, [AuthorizeExperiment(experimentId)])
    else
      Check(Fail(InvalidInput(UnsupportedReference(requestKey))), [])
  }

  /** The legacy experiment alias takes exactly the path of the experiment type. */
  lemma LegacyExperimentAlias(multiUser: bool, env: Env, caller: Caller, id: string, requestKey: Option<ReferenceKey>)
    ensures AuthorizeListScope(multiUser, env, caller, Some(ReferenceKey(EXPERIMENT_UUID_TYPE, id)), requestKey)
         == AuthorizeListScope(multiUser, env, caller, Some(ReferenceKey(EXPERIMENT_TYPE, id)), requestKey)
  {
  }
}
