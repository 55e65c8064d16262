/** Small shared vocabulary: optional values, results and the backend's domain errors. */
module Core {

  datatype Option<+T> = None | Some(value: T)

  datatype Result<+T, +E> = Success(value: T) | Failure(error: E)

  /** The `code` attribute of the backend's DomainError family. */
  datatype Error =
    | PermissionDenied
    | NotFound
    | InvalidTransition
    | ValidationError
    | DuplicatePayment
    | AmountMismatch
    | PaymentFailed
    | FeatureDisabled
    | OrderLocked
    | RevisionsExhausted
    | DuplicatePayout
    | PayoutFrozen
    | DuplicateDispute
    | DisputeWindowClosed
    | RequestClosed
    | RequestLocked
    | SelfDealing
    | OfferTooLow
    | OfferExists
    | OfferLimit
    | OfferLocked
    | ExpertIneligible
    | AssignmentLocked
    | AssignmentExists
    | NotManaged
    | QuoteRequired
    | EmptyPool
    | AttestationRequired
    | DuplicateReview
    | ReviewAnswered
    | ValueError
    | IntegrityError

  type UserId = nat

  /** Wall-clock time in seconds. */
  type Time = nat

  const HOUR: Time := 3600
  const DAY: Time := 24 * HOUR

  datatype Actor = Actor(id: UserId, staff: bool)
}
