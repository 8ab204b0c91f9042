/**
  `validateCreateRunRequest`: a run needs a name and a usable execution
  definition, either its own pipeline spec or, failing that, a pipeline
  version among its resource references.
 */
module Validation {
  import opened Api
  import opened Errors
  import opened Collaborators
  import opened Trace
  import opened Access

  /** The run can be executed: its spec is valid or its version reference is. */
  predicate DefinitionUsable(env: Env, run: Run) {
    env.validatePipelineSpec(run.pipelineSpec).Pass? ||
    env.checkPipelineVersionReference(run.resourceReferences).Pass?
  }

  predicate CreateRequestValid(env: Env, run: Run) {
    run.name != "" && DefinitionUsable(env, run)
  }

  /** validateCreateRunRequest(request) */
  function ValidateCreateRunRequest(env: Env, run: Run): (r: Check)
    ensures r.outcome.Pass? <==> CreateRequestValid(env, run)
    ensures InPhase(r.trace, VALIDATION) && Staged(r.trace)
    ensures run.name == "" ==> r == Check(Fail(InvalidInput(RunNameEmpty)), [])
    ensures run.name != "" ==> 0 < |r.trace| && r.trace[0] == CheckPipelineSpec
    ensures env.validatePipelineSpec(run.pipelineSpec).Pass? ==> CheckVersionReference !in r.trace
    ensures run.name != "" && !DefinitionUsable(env, run) ==>
      var specError := env.validatePipelineSpec(run.pipelineSpec).error;
      var versionError := env.checkPipelineVersionReference(run.resourceReferences).error;
      && r.outcome == Fail(Wrapped(NeitherSpecNorVersion(versionError), specError))
      && Code(r.outcome.error) == Code(specError)
  {
    if run.name == "" then
      Check(Fail(InvalidInput(RunNameEmpty)), [])
    else
      match env.validatePipelineSpec(run.pipelineSpec)
      case Pass => Check(Pass, [CheckPipelineSpec])
      case Fail(specError) =>
        var trace := [CheckPipelineSpec, CheckVersionReference];
        match env.checkPipelineVersionReference(run.resourceReferences)
        case Fail(versionError) => Check(Fail(Wrapped(NeitherSpecNorVersion(versionError), specError)), trace)
        case Pass => Check(Pass, trace)
  }
}
