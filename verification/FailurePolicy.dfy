/** The fail-close policy: what each failure class does to the route and the worker. */
module FailurePolicy {
  import opened Prelude
  import opened RuntimeState

  datatype FailureClass =
    | PayloadFileNotFound
    | PayloadSha256Mismatch
    | PayloadHeaderCorrupted
    | PayloadTensorKeyMissing
    | PayloadShapeMismatch
    | PayloadDtypeMismatch
    | PayloadNanInfDetected
    | PayloadTooLarge
    | PayloadIoError
    | SwapTargetLayerNotFound
    | SwapLockAcquisitionFailed
    | SwapVramInsufficient
    | SwapDeltaApplicationError
    | SwapStateStuck
    | RollbackChecksumMismatch
    | RollbackException
    | RollbackPartialRestore
    | InferenceException
    | StateTransitionInvalid

  datatype Remediation = RejectRequest | QuarantineRoute | QuarantineWorker | AbortAndRollback

  datatype Verdict = Verdict(action: Remediation, scope: Option<QuarantineScope>, target: Phase, httpStatus: nat,
      critical: bool)

  const ROUTE_REJECTED := Verdict(RejectRequest, Some(RouteScope), RouteQuarantined, 503, false)
  const WORKER_LOST := Verdict(QuarantineWorker, Some(WorkerScope), WorkerQuarantined, 503, true)

  function EvaluateFailure(fc: FailureClass): Verdict {
    match fc
    case PayloadFileNotFound => ROUTE_REJECTED
    case PayloadSha256Mismatch => Verdict(QuarantineRoute, Some(RouteScope), RouteQuarantined, 503, true)
    case PayloadHeaderCorrupted => Verdict(QuarantineRoute, Some(RouteScope), RouteQuarantined, 503, false)
    case PayloadTensorKeyMissing => ROUTE_REJECTED
    case PayloadShapeMismatch => ROUTE_REJECTED
    case PayloadDtypeMismatch => ROUTE_REJECTED
    case PayloadNanInfDetected => Verdict(QuarantineRoute, Some(RouteScope), RouteQuarantined, 503, true)
    case PayloadTooLarge => Verdict(RejectRequest, None, Ready, 413, false)
    case PayloadIoError => ROUTE_REJECTED
    case SwapTargetLayerNotFound => Verdict(QuarantineRoute, Some(RouteScope), RouteQuarantined, 503, false)
    case SwapLockAcquisitionFailed => Verdict(RejectRequest, None, Ready, 503, false)
    case SwapVramInsufficient => Verdict(AbortAndRollback, Some(RouteScope), RouteQuarantined, 503, false)
    case SwapDeltaApplicationError => Verdict(AbortAndRollback, Some(RouteScope), RollingBack, 503, false)
    case SwapStateStuck => WORKER_LOST
    case RollbackChecksumMismatch => WORKER_LOST
    case RollbackException => WORKER_LOST
    case RollbackPartialRestore => WORKER_LOST
    case InferenceException => Verdict(AbortAndRollback, None, RollingBack, 500, false)
    case StateTransitionInvalid => WORKER_LOST
  }

  // What payload validation can raise.
  predicate PayloadClass(fc: FailureClass) {
    fc in {PayloadFileNotFound, PayloadSha256Mismatch, PayloadHeaderCorrupted, PayloadTensorKeyMissing,
           PayloadShapeMismatch, PayloadDtypeMismatch, PayloadNanInfDetected, PayloadTooLarge, PayloadIoError}
  }

  // A failure that takes the route, and only the route, out of service.
  predicate RouteScoped(fc: FailureClass) {
    EvaluateFailure(fc).scope.Some? && EvaluateFailure(fc).target == RouteQuarantined
  }

  // The policy separates the scopes: a payload failure never costs the worker, and costs
  // the route unless the file was only too large; the worker is lost exactly to failed
  // rollbacks, a stuck state and an invalid transition.
  lemma ScopesAreSeparate(fc: FailureClass)
    ensures PayloadClass(fc) ==> EvaluateFailure(fc).scope != Some(WorkerScope)
    ensures PayloadClass(fc) ==> (RouteScoped(fc) <==> fc != PayloadTooLarge)
    ensures EvaluateFailure(fc).target == WorkerQuarantined <==> EvaluateFailure(fc).scope == Some(WorkerScope)
    ensures EvaluateFailure(fc).scope == Some(WorkerScope) <==>
      fc in {SwapStateStuck, RollbackChecksumMismatch, RollbackException, RollbackPartialRestore,
          StateTransitionInvalid}
    ensures EvaluateFailure(fc).scope == None ==> EvaluateFailure(fc).target in {Ready, RollingBack}
  {
  }

  // What the caller is told: a request is too large, the inference failed, or the service is
  // unavailable; critical are the signs of tampering or corruption and whatever costs the
  // worker; and only an unfinished swap, or a failed inference, calls for a rollback.
  lemma VerdictsByClass(fc: FailureClass)
    ensures EvaluateFailure(fc).httpStatus ==
      if fc == PayloadTooLarge then 413 else if fc == InferenceException then 500 else 503
    ensures EvaluateFailure(fc).critical <==>
      fc in {PayloadSha256Mismatch, PayloadNanInfDetected} || EvaluateFailure(fc).scope == Some(WorkerScope)
    ensures EvaluateFailure(fc).action == AbortAndRollback <==>
      fc in {SwapVramInsufficient, SwapDeltaApplicationError, InferenceException}
    ensures EvaluateFailure(fc).action == QuarantineWorker <==> EvaluateFailure(fc).scope == Some(WorkerScope)
    ensures EvaluateFailure(fc).action == QuarantineRoute <==>
      fc in {PayloadSha256Mismatch, PayloadHeaderCorrupted, PayloadNanInfDetected, SwapTargetLayerNotFound}
    ensures EvaluateFailure(fc).scope == Some(RouteScope) && EvaluateFailure(fc).target != RouteQuarantined <==>
      fc == SwapDeltaApplicationError
    ensures EvaluateFailure(fc).target == RollingBack <==> fc in {SwapDeltaApplicationError, InferenceException}
    ensures EvaluateFailure(fc).scope == None <==>
      fc in {PayloadTooLarge, SwapLockAcquisitionFailed, InferenceException}
  {
  }
}
