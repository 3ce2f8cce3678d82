/** Errors of the Kubernetes client and of the layers that wrap it. */
module ClientErrors {
  import opened Prelude
  import Lifecycle
  import opened Manifests
  import opened Stamps

  /** The three constructors are the only way to make one; see `Made`. */
  datatype KubernetesClientError = KubernetesClientError(message: string, retryable: bool, outcomeUncertain: bool)

  function Definite(message: string): KubernetesClientError { KubernetesClientError(message, false, false) }

  function Transient(message: string): KubernetesClientError { KubernetesClientError(message, true, false) }

  function Uncertain(message: string): KubernetesClientError { KubernetesClientError(message, false, true) }

  predicate Made(e: KubernetesClientError) {
    e == Definite(e.message) || e == Transient(e.message) || e == Uncertain(e.message)
  }

  type ClientError = e: KubernetesClientError | Made(e) witness KubernetesClientError("", false, false)

  datatype ManifestFault =
    | WrongGeneration(at: ObjectRef)
    | BadName(at: ObjectRef)
    | BadNamespace(at: ObjectRef)
    | NotClusterScoped(at: ObjectRef)
    | UnsupportedKind(at: ObjectRef)
    | DuplicateRef(at: ObjectRef)

  datatype MaterializerError =
    | InvalidManifest(fault: ManifestFault)
    | ApplyFailed(failed: ObjectRef, applied: seq<ObjectRef>, source: ClientError)
    | DeleteFailed(failed: ObjectRef, source: ClientError)
    | ClaimNotBound(namespace: string, name: string, applied: seq<ObjectRef>, source: ClientError)
    | NotReady(rendered: seq<ObjectRef>, source: ClientError)

  datatype ProjectionError =
    | InspectError(objectRef: ObjectRef, observations: seq<Observation>, cause: ClientError)
    | MissingManifest
    | OwnershipConflict(observations: seq<Observation>)
    | CleanupBlocked(observations: seq<Observation>)
    | Incomplete(observations: seq<Observation>)
    | ApplyError(observations: seq<Observation>, failure: MaterializerError)
    | DeleteError(observations: seq<Observation>, failure: MaterializerError)
    | ReadinessError(observations: seq<Observation>, failure: MaterializerError)

  datatype ReconcileError =
    | Store(store: Lifecycle.Error)
    | Materializer(materializer: MaterializerError)
    | Projection(projection: ProjectionError)
    | Render
    | StaleDesiredRefs
    | LeaseLost
    | Cancelled
    | Deadline

  function MaterializerPermanent(e: MaterializerError): bool {
    match e
    case InvalidManifest(_) => true
    case ApplyFailed(_, _, source) => !source.retryable && !source.outcomeUncertain
    case DeleteFailed(_, source) => !source.retryable && !source.outcomeUncertain
    case ClaimNotBound(_, _, _, _) => false
    case NotReady(_, _) => false
  }

  /** Whether a reconcile error ends the attempt for good. */
  predicate Permanent(e: ReconcileError) {
    match e
    case Render => true
    case StaleDesiredRefs => true
    case Store(s) => s.InvalidArgument? || s.NotFound?
    case Materializer(m) => MaterializerPermanent(m)
    case Projection(ApplyError(_, m)) => MaterializerPermanent(m)
    case Projection(DeleteError(_, m)) => MaterializerPermanent(m)
    case Projection(MissingManifest) => true
    case Projection(OwnershipConflict(_)) => true
    case Projection(InspectError(_, _, cause)) => !cause.retryable && !cause.outcomeUncertain
    case _ => false
  }

  function MaterializerCause(e: MaterializerError): Option<ClientError> {
    if e.InvalidManifest? then None else Some(e.source)
  }

  /** The client error at the bottom of a reconcile error, however it is wrapped. */
  function Cause(e: ReconcileError): Option<ClientError> {
    match e
    case Materializer(m) => MaterializerCause(m)
    case Projection(InspectError(_, _, cause)) => Some(cause)
    case Projection(ApplyError(_, m)) => MaterializerCause(m)
    case Projection(DeleteError(_, m)) => MaterializerCause(m)
    case Projection(ReadinessError(_, m)) => MaterializerCause(m)
    case _ => None
  }

  /** The error came from waiting, for a claim or for readiness, not from a call. */
  predicate FromWaiting(e: ReconcileError) {
    match e
    case Materializer(m) => m.ClaimNotBound? || m.NotReady?
    case Projection(ApplyError(_, m)) => m.ClaimNotBound? || m.NotReady?
    case Projection(DeleteError(_, m)) => m.ClaimNotBound? || m.NotReady?
    case Projection(ReadinessError(_, _)) => true
    case _ => false
  }

  /** However a client error is wrapped, it is permanent exactly if it is definite and no mere wait ran out. */
  lemma OnlyDefiniteIsPermanent(e: ReconcileError)
    requires Cause(e).Some?
    ensures Permanent(e) <==> Cause(e).value == Definite(Cause(e).value.message) && !FromWaiting(e)
  {
  }

  /** What is wrong with the work itself, however often it is tried. */
  predicate Hopeless(e: ReconcileError) {
    || e == Render || e == StaleDesiredRefs || e == Store(Lifecycle.InvalidArgument) || e == Store(Lifecycle.NotFound)
    || (e.Materializer? && e.materializer.InvalidManifest?)
    || (e.Projection? && (e.projection == MissingManifest || e.projection.OwnershipConflict?))
    || (e.Projection? && e.projection.ApplyError? && e.projection.failure.InvalidManifest?)
    || (e.Projection? && e.projection.DeleteError? && e.projection.failure.InvalidManifest?)
  }

  /** An error with no client error behind it is permanent exactly if another attempt is bound to end the same way. */
  lemma OnlyHopelessIsPermanent(e: ReconcileError)
    requires Cause(e).None?
    ensures Permanent(e) <==> Hopeless(e)
  {
  }

  // ---- where client errors of mutations come from ------------------------

  /** A failed API call; `conflict` is the server's conflict status. */
  datatype KubeError =
    | Api(code: nat, conflict: bool) | HyperError | ServiceError | ReadEvents
    | BuildRequest | HttpError | AuthError | OtherError

  predicate IsTransient(e: KubeError) {
    match e
    case Api(code, conflict) => conflict || code == 429 || 500 <= code <= 599
    case HyperError => true
    case ServiceError => true
    case ReadEvents => true
    case _ => false
  }

  function KubeErrorOf(e: KubeError, message: string): ClientError {
    if IsTransient(e) then Transient(message) else Definite(message)
  }

  function MutationError(e: KubeError, message: string): ClientError {
    if e.Api? && e.code < 500 then KubeErrorOf(e, message)
    else if e.BuildRequest? || e.HttpError? || e.AuthError? then Definite(message)
    else Uncertain(message)
  }
}
