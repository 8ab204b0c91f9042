/**
  Call traces. Every handler reports, in order, which collaborators it
  invoked; the stage discipline of the handler and its fail-closed
  authorization are predicates over such a trace.
 */
module Trace {
  import opened Api
  import opened Errors
  import opened Collaborators

  /** The resource-manager operations a handler delegates to. */
  datatype EngineOp =
    | CreateOp
    | GetOp(runId: string)
    | ListOp
    | ArchiveOp(runId: string)
    | UnarchiveOp(runId: string)
    | DeleteOp(runId: string)
    | TerminateOp(runId: string)
    | RetryOp(runId: string)
      /** Reporting the metric at this position of the request. */
    | ReportMetricOp(index: nat)

  datatype Call =
      // validation
    | BuildListOptions
    | CheckFilter
    | CheckPipelineSpec
    | CheckVersionReference
    | CheckMetric(index: nat)
      // access resolution and authorization
    | LookupNamespace(runId: string)
    | AuthorizeNamespace(namespace: string)
    | AuthorizeExperiment(experimentId: string)
    | AuthorizeReferences(references: seq<ResourceReference>)
      // delegation
    | Engine(op: EngineOp)

  const VALIDATION: nat := 0
  const AUTHORIZATION: nat := 1
  const DELEGATION: nat := 2

  function Phase(c: Call): nat {
    match c
    case BuildListOptions | CheckFilter | CheckPipelineSpec | CheckVersionReference | CheckMetric(_) => VALIDATION
    case LookupNamespace(_) | AuthorizeNamespace(_) | AuthorizeExperiment(_) | AuthorizeReferences(_) => AUTHORIZATION
    case Engine(_) => DELEGATION
  }

  /** Validate, then authorize, then delegate: phases never go backwards. */
  predicate Staged(t: seq<Call>) {
    forall i, j :: 0 <= i < j < |t| ==> Phase(t[i]) <= Phase(t[j])
  }

  predicate InPhase(t: seq<Call>, phase: nat) {
    forall k :: 0 <= k < |t| ==> Phase(t[k]) == phase
  }

  /** No call of the trace belongs to `phase`. */
  predicate Skips(t: seq<Call>, phase: nat) {
    forall k :: 0 <= k < |t| ==> Phase(t[k]) != phase
  }

  /** An authorization call that let the caller through. */
  predicate Granted(env: Env, caller: Caller, c: Call) {
    match c
    case AuthorizeNamespace(ns) => ns != "" && env.isAuthorized(caller, ns).Pass?
    case AuthorizeExperiment(e) => e != "" && env.canAccessExperiment(caller, e).Pass?
    case AuthorizeReferences(refs) => env.canAccessExperimentInReferences(caller, refs).Pass?
    case _ => false
  }

  /** Every delegation is preceded by an authorization call that succeeded. */
  predicate GrantedBefore(env: Env, caller: Caller, t: seq<Call>) {
    forall k :: 0 <= k < |t| && t[k].Engine? ==>
      exists j :: 0 <= j < k && Granted(env, caller, t[j])
  }

  /** The trace delegates once at most, to `op`, as its last call. */
  predicate OnlyEngineCall(t: seq<Call>, op: EngineOp) {
    forall k :: 0 <= k < |t| && t[k].Engine? ==> k == |t| - 1 && t[k] == Engine(op)
  }

  /**
    An authorization trace keeps the stage discipline and delegates nothing;
    extended by one call to `op` after a grant, it still fails closed and
    delegates only to `op`.
   */
  lemma AuthorizedDelegation(multiUser: bool, env: Env, caller: Caller, t: seq<Call>, op: EngineOp)
    requires InPhase(t, AUTHORIZATION)
    ensures Staged(t) && FailClosed(multiUser, env, caller, t) && OnlyEngineCall(t, op) && Engine(op) !in t
    ensures (multiUser ==> 0 < |t| && Granted(env, caller, t[0])) ==>
      var full := t + [Engine(op)];
      Staged(full) && FailClosed(multiUser, env, caller, full) && OnlyEngineCall(full, op)
  {
    var full := t + [Engine(op)];
    assert forall k :: 0 <= k < |t| ==> full[k] == t[k];
    if multiUser ==> 0 < |t| && Granted(env, caller, t[0]) {
      forall k | 0 <= k < |full| && full[k].Engine?
        ensures multiUser ==> exists j :: 0 <= j < k && Granted(env, caller, full[j])
      {
        if multiUser {
          assert Granted(env, caller, full[0]);
        }
      }
    }
  }

  /** A trace of validation calls alone: staged, delegating nothing, authorizing nothing. */
  lemma ValidationOnly(multiUser: bool, env: Env, caller: Caller, t: seq<Call>, op: EngineOp)
    requires InPhase(t, VALIDATION)
    ensures Staged(t) && FailClosed(multiUser, env, caller, t) && OnlyEngineCall(t, op)
    ensures Engine(op) !in t && Skips(t, AUTHORIZATION)
  {
  }

  /** Validation calls put in front of a trace keep its staging, its grants and its single delegation. */
  lemma ValidationPrefix(multiUser: bool, env: Env, caller: Caller, p: seq<Call>, t: seq<Call>, op: EngineOp)
    requires InPhase(p, VALIDATION)
    requires Staged(t) && FailClosed(multiUser, env, caller, t) && OnlyEngineCall(t, op)
    ensures Staged(p + t) && FailClosed(multiUser, env, caller, p + t) && OnlyEngineCall(p + t, op)
    ensures Engine(op) in p + t <==> Engine(op) in t
    ensures Skips(t, AUTHORIZATION) ==> Skips(p + t, AUTHORIZATION)
  {
    var s := p + t;
    forall i, j | 0 <= i < j < |s|
      ensures Phase(s[i]) <= Phase(s[j])
    {
      if j < |p| {
        assert s[i] == p[i] && s[j] == p[j];
      } else if i < |p| {
        assert s[i] == p[i];
      } else {
        assert s[i] == t[i - |p|] && s[j] == t[j - |p|];
      }
    }
    forall k | 0 <= k < |s| && s[k].Engine?
      ensures k == |s| - 1 && s[k] == Engine(op)
      ensures multiUser ==> exists j :: 0 <= j < k && Granted(env, caller, s[j])
    {
      if k >= |p| {
        assert s[k] == t[k - |p|];
        if multiUser {
          var j :| 0 <= j < k - |p| && Granted(env, caller, t[j]);
          assert s[j + |p|] == t[j];
        }
      }
    }
    assert Engine(op) !in p;
  }

  /** In multi-user mode nothing reaches the engine without a grant. */
  predicate FailClosed(multiUser: bool, env: Env, caller: Caller, t: seq<Call>) {
    multiUser ==> GrantedBefore(env, caller, t)
  }
}
