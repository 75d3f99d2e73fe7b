/** What a handler leaves behind: the database it wrote and the answer it gave. */
module Http {
  import opened Wrappers
  import opened ErrorMiddleware
  import opened Schema
  import Store

  /** The fixed texts the handlers and the token middleware answer with. */
  datatype Message =
    | InvalidEventDetails
    | UserNotFoundUnauthorized
    | MissingRequiredFields
    | PaidNeedsPrice
    | UserNotFound
    | EventNotFound
    | MissingEventId
    | CapacityReached
    | AlreadyRegistered
    | Unauthorized
    | EventIdRequired
    | NotOrganizer
    | InvalidQrData
    | TicketNotFound
    | TicketAlreadyUsed
    | TicketVerified
    | TransactionNotFound
    | MemoMismatch
    | PaymentNotSuccessful
    | SignedOut
    | NoTokenProvided
    | InvalidToken

  function Text(m: Message): (t: string)
    ensures t != ""
  {
    match m
    case InvalidEventDetails => "Invalid eventDetails format"
    case UserNotFoundUnauthorized => "Unauthorized: user not found"
    case MissingRequiredFields => "Missing required fields"
    case PaidNeedsPrice => "Paid events require a valid price"
    case UserNotFound => "User not found"
    case EventNotFound => "Event not found"
    case MissingEventId => "Missing eventId in request body"
    case CapacityReached => "Event capacity reached"
    case AlreadyRegistered => "You already registered for this event"
    case Unauthorized => "Unauthorized"
    case EventIdRequired => "Event ID is required"
    case NotOrganizer => "You are not the organizer of this event"
    case InvalidQrData => "Invalid QR data"
    case TicketNotFound => "Ticket not found"
    case TicketAlreadyUsed => "Ticket already used"
    case TicketVerified => "Ticket verified and marked as used successfully"
    case TransactionNotFound => "Transaction not found"
    case MemoMismatch => "Payment memo does not match payment ID"
    case PaymentNotSuccessful => "Payment not successful"
    case SignedOut => "User signed out"
    case NoTokenProvided => "Unauthorized: No token provided"
    case InvalidToken => "Unauthorized: Invalid or expired token"
  }

  /** A thrown error: one the store raised, or any other (a platform call, a TypeError). */
  datatype Thrown = StoreError(dbError: DbError) | OtherError(appError: AppError)

  /** The error object the catch block or the error handler receives. */
  function AsAppError(t: Thrown): AppError
  {
    match t
    case StoreError(e) => ToAppError(e)
    case OtherError(e) => e
  }

  /** How a request ends. `Done` and `Refused` are responses the handler writes itself;
      `ServerError` is the payment handlers' `500 { error: err.message }`; `Next` passes a thrown
      error to `next(err)`; `Unhandled` is an error thrown outside any `try`, which rejects the
      handler's promise; `NoReply` is a handler that returns without answering. */
  datatype Reply<+T> =
    | Done(status: int, value: T)
    | Refused(status: int, message: Message)
    | ServerError(err: Thrown)
    | Next(err: Thrown)
    | Unhandled(err: Thrown)
    | NoReply

  datatype Outcome<+T> = Outcome(state: Store.State, reply: Reply<T>)

  /** JavaScript truthiness of an optional string: present and not empty. */
  predicate Present(v: Option<string>)
  {
    v.Some? && v.value != ""
  }
}
