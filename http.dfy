/**
 * The failure reasons the handlers report, each with the HTTP status code
 * the handler answers with.
 */
module Http {

  datatype Reason =
    | MissingParameter        // a path parameter or a required body field is empty
    | InvalidRequest          // request binding or a field check failed
    | NotLoggedIn             // no user id in the request context
    | UnknownUser             // the user id in the context names no user
    | UserNotFound            // no user with the uuid the request names
    | AccountDeactivated      // the user's deletion time is set
    | WrongRole               // the caller's user type may not do this
    | IdentityNotVerified     // a worker without an ID card number
    | TaskUnavailable         // no task with that uuid (and status, where asked)
    | ApplicationNotFound
    | AlreadyApplied
    | NotTaskOwner
    | NotAssignee
    | TaskNotRecruiting
    | ApplicationHandled
    | TaskNotInProgress
    | TaskNotPaymentPending
    | NothingToConfirm
    | PaymentFailed           // every payout of a confirmation failed
    | BadAmountFormat
    | BadAmountType
    | NonPositiveAmount
    | InsufficientBalance
    | ReviewNotAllowed
    | AlreadyReviewed
    | Conflict                // a unique field is taken by another user
    | BadCredentials
    | StorageError            // a write or a lookup the handler treats as internal failed
    | InternalPanic           // a runtime panic, answered by the recovery middleware
    | SigningFailed           // the session token could not be signed

  /** The HTTP status code the handlers send with each reason. */
  function Status(r: Reason): (code: nat)
    ensures 400 <= code < 600
    ensures code == 401 <==> r in {NotLoggedIn, UnknownUser, AccountDeactivated, BadCredentials}
    ensures code >= 500 <==> r in {PaymentFailed, StorageError, InternalPanic, SigningFailed}
  {
    match r
    case NotLoggedIn | UnknownUser | AccountDeactivated | BadCredentials => 401
    case WrongRole | IdentityNotVerified | NotTaskOwner | NotAssignee => 403
    case TaskUnavailable | ApplicationNotFound | UserNotFound => 404
    case Conflict => 409
    case PaymentFailed | StorageError | InternalPanic | SigningFailed => 500
    case _ => 400
  }
}
