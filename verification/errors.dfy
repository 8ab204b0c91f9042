/**
  Error values. A Go `error` becomes an `Err`; the messages this layer
  builds itself are named by `Message`, and `util.Wrap` becomes `Wrapped`
  with the stage label it adds.
 */
module Errors {
  import opened Api

  /** The code a caller sees; wrapping keeps the code of the wrapped error. */
  datatype ErrorCode =
    | InvalidInputCode
    | InternalCode
    | NotFoundCode
    | PermissionDeniedCode
    | UnauthenticatedCode
    | AlreadyExistsCode
    | UnknownCode

  /** The messages the handler creates itself. */
  datatype Message =
    | RunNameEmpty
    | ReferenceKeyMissing
    | NamespaceIdEmpty
    | ExperimentIdEmpty
      /** Quotes the request's reference key for diagnosis. */
    | UnsupportedReference(requestKey: Option<ReferenceKey>)
    | NoNamespaceFound

  /** The context label a wrap adds, one per wrap site of the handler. */
  datatype Stage =
    | ValidateCreateRun          // "Validate create run request failed."
    | AuthorizeRequest           // "Failed to authorize the request."
    | CreateRunEngine            // "Failed to create a new run."
    | ListOptionsStage           // "Failed to create list options"
    | FilterStage                // "Validating filter failed."
    | NamespaceReferenceAuth     // "Failed to authorize with namespace resource reference."
    | ExperimentReferenceAuth    // "Failed to authorize with experiment resource reference."
    | ListRunsEngine             // "Failed to list runs."
    | RunIdLookup                // "Failed to authorize with the run Id."
    | ApiReferenceAuth           // "Failed to authorize with API resource references"
      /** "Neither pipeline spec nor pipeline version is valid." followed by the version error. */
    | NeitherSpecNorVersion(versionError: Err)

  datatype Err =
    | InvalidInput(message: Message)
    | Internal(message: Message)
      /** An error produced by a collaborator this model does not look into. */
    | Opaque(code: ErrorCode, id: nat)
    | Wrapped(stage: Stage, inner: Err)

  function Code(e: Err): ErrorCode {
    match e
    case InvalidInput(_) => InvalidInputCode
    case Internal(_) => InternalCode
    case Opaque(c, _) => c
    case Wrapped(_, inner) => Code(inner)
  }

  /** A Go `error` result: nil or an error. */
  datatype Outcome = Pass | Fail(error: Err)

  /** A Go `(value, error)` pair. */
  datatype Result<+T> = Success(value: T) | Failure(error: Err)
}
