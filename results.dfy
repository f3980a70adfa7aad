/** Outcomes of calls into the cluster backend and the errors the reconciler
    passes back up.  The backend is abstract: every call returns a tagged
    result, and the reconciler branches only on the tag. */
module Results {

  datatype Option<T> = None | Some(value: T)

  /** The status reason a Kubernetes API error carries. The reconciler
      distinguishes NotFound and AlreadyExists; everything else is opaque. */
  datatype Reason = NotFound | AlreadyExists | Other(msg: string)

  /** Result of a backend call that returns an object. */
  datatype Res<T> = Ok(value: T) | Err(reason: Reason)

  /** A Go `error` value as the reconciler builds it.
      - Api: the error returned by the client, which still carries its reason;
      - Wrapped: `fmt.Errorf("...: %v", cause)`, a new error whose text quotes
        the cause but which no longer carries the cause's reason;
      - Message: `fmt.Errorf(...)` without a cause;
      - AtStage: the wrapping Sync adds, naming the stage that failed.
      Message texts are not modelled. */
  datatype Error =
    | Api(reason: Reason)
    | Wrapped(cause: Error)
    | Message
    | AtStage(stage: Stage, cause: Error)

  /** A Go `error` result: nil (Pass) or an error. */
  datatype Outcome = Pass | Fail(error: Error)

  /** Result of a helper that returns a value or an error it built itself
      (and so carries no API reason the reconciler looks at). */
  datatype Result<T> = Success(value: T) | Failure(error: Error)

  /** The stages of one reconciliation pass, in the order Sync runs them;
      StatusStage is the deferred status write at the end of the pass. */
  datatype Stage =
    | UsersStage | SecretsStage | ServicesStage | ActionsStage | VolumesStage | StatefulSetStage
    | RolesStage | DatabasesStage | PdbStage | StatusStage

  /** The position of a stage in the pass; the status write comes last. */
  function Rank(s: Stage): (r: nat)
    ensures r <= 9
    ensures r == 9 <==> s == StatusStage
  {
    match s
    case UsersStage => 0
    case SecretsStage => 1
    case ServicesStage => 2
    case ActionsStage => 3
    case VolumesStage => 4
    case StatefulSetStage => 5
    case RolesStage => 6
    case DatabasesStage => 7
    case PdbStage => 8
    case StatusStage => 9
  }

  /** k8sutil.ResourceAlreadyExists: it looks at the reason the error
      itself carries, so an error built by fmt.Errorf from an API error does
      not satisfy it. */
  predicate ResourceAlreadyExists(e: Error)
  {
    e == Api(AlreadyExists)
  }

  /** The innermost error a chain of wrappings was built from. */
  function RootCause(e: Error): (r: Error)
    ensures !r.Wrapped? && !r.AtStage?
  {
    match e
    case Wrapped(c) => RootCause(c)
    case AtStage(_, c) => RootCause(c)
    case _ => e
  }
}
