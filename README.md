# Tiketa ticket lifecycle, in Dafny

Tiketa is an event-ticketing backend (Express and Mongoose) for Pi Network users. This project
models the backend's ticket lifecycle and proves properties about it:

- an organizer creates an event;
- an attendee registers for free (`register`) or pays through the Pi platform (`approvePayment`);
- the payment is then completed (`completePayment`, or the Horizon-checked
  `handleIncompletePayment`) or cancelled (`cancelPayment`);
- at the door the ticket's QR payload is redeemed once (`verifyTicket`).

Around that sit the sign-in upsert, the bearer-token middleware and the error handler.

How the model is built:

- **The store.** The MongoDB database is `Store.State`: four sequences (events, users,
  tickets, transactions) in insertion order. A document's `_id` is its position, because the
  core never deletes anything. Sorting by `createdAt` is taken to be insertion order (see
  "Left out" for ties).
- **Mongoose operations.**
  - `findOne` is `Query.FindFirst`, `countDocuments` is `Query.Count`, and
    `find().sort({createdAt: -1}).limit(n)` is `Query.Newest`.
  - Inserts go through schema validation (the `Validate` functions of the four model modules)
    and then the unique indexes (`Store.NewEvent`, `NewTicket`, `NewTxn`, `NewUser`).
  - `findByIdAndUpdate` skips validation. That is how `"cancelled"` reaches a ticket.
- **The handlers.**
  - Every handler that writes is a method on the class `Store.Db`. Each method performs the
    same Mongoose calls in the same order as the source, and is proved equal to a pure
    `...Outcome` function of the starting state. That function returns the new state and the
    reply (`Http.Reply`: a handler-written response, the payment handlers' 500, `next(err)`, an
    error thrown outside any `try`, or no response at all).
  - Handlers that only read are functions.
  - The lemmas are stated about the `...Outcome` functions. Each handler keeps the store
    invariant `Store.Inv`, which covers:
    - references resolve;
    - the unique indexes hold;
    - stored records keep their schema constraints;
    - no event has more tickets than seats;
    - no (event, owner) pair has two tickets;
    - every transaction linked to a ticket is the purchase of that ticket from its owner to the
      organizer, at its price.
  - The lemmas also cover the lifecycle across handlers (module `Scenarios`).
- **Outside answers.** The Pi platform's answers (`/v2/me`, `GET /v2/payments/:id`, approve
  and complete), the Horizon lookup and `uuidv4` are parameters of the handlers.
- **The request.** The authenticated username that `verifyUser` attaches is the handlers'
  `user` parameter. A `None` or empty value stands for an absent one; this is also the case
  for `/event/getall`, which is not behind `verifyUser`.

## Behaviour taken from the code

Where a reader might expect otherwise, the model follows the code:

- **Cancelled tickets still count.** Capacity and duplicate-registration checks count tickets
  of every status, cancelled ones included (`EventController.Admission`). A cancelled purchase
  therefore still blocks its owner and holds its seat (`PaymentController.CancelFreesNoSeat`,
  `Scenarios.CancelledPurchaseBlocksRetry`).
- **The paid ticket is active at once.** `approvePayment` creates the ticket `"active"`,
  before payment (`PaymentController.ApprovedTicketActiveWhilePending`).
- **Paid registration is not all-or-nothing.** If creating the transaction or the platform's
  approve call fails, the ticket stays, or both records stay, and the reply is a 500.
- **`completePayment` is not idempotent.** It replaces the payment id with the txid, so
  repeating the call answers 404 (`PaymentController.CompleteIsNotRepeatable`).
- **`cancelPayment` writes a status outside the enum.** It writes `"cancelled"`, which the
  Ticket status enum does not contain. The model has an explicit `Cancelled` status.
  `verifyTicket` stops only `"used"` tickets, so it admits cancelled and transferred tickets
  (`EventController.VerifyAdmitsAnyUnusedTicket`).
- **The error handler is never mounted.** `server.ts` does not mount the error middleware, so
  `next(err)` from a handler reaches Express's default handler. The middleware is modelled on
  its own (`ErrorMiddleware.Handle`), and `Schema.StoreErrorsAre400` says what it would answer
  for store errors.
- **A successful incomplete payment gets no answer.** `handleIncompletePayment` sends no
  response when it succeeds, and catches and only logs every error (`Http.NoReply`).
- **The signin 500 is unreachable.** It is taken only when the user found a moment earlier has
  disappeared, which a sequential model cannot produce.
- **The uid index is not sparse.** It treats a missing `uid` as a value, so users without a uid
  collide (`Store.NewUser`).

## Model

| member | source | states |
|---|---|---|
| Wrappers.OrElse | backend/src/controllers/paymentController.ts:96 | `event.price \|\| price`: a missing or zero event price falls back to the metadata price, otherwise the event price is kept |
| Query.FindFirst | backend/src/controllers/eventController.ts:150 | `findOne` answers the first matching document, every earlier document fails the filter, and `None` exactly when nothing matches |
| Query.Count | backend/src/controllers/eventController.ts:157 | `countDocuments` is at most the collection size, and zero exactly when nothing matches |
| Query.NewestFirst | backend/src/controllers/eventController.ts:257-259 | `find().sort({createdAt:-1})` returns every matching document exactly once, only matching ones, in strictly decreasing insertion order |
| Query.Newest | backend/src/controllers/eventController.ts:111-118 | adding `.limit(n)` returns min(count, n) matches, newest first, and any match left out is older than all returned and the page is full |
| Text.Split | backend/src/middlewares/verify.ts:29 | `split(" ")` yields at least one field and no field contains the separator |
| Text.JoinSplit | backend/src/middlewares/verify.ts:29 | joining the fields of `split(sep)` with `sep` gives the string back |
| Text.SplitAfterField | backend/src/middlewares/verify.ts:29 | a separator-free prefix followed by the separator becomes the first field on its own |
| ErrorMiddleware.Handle | backend/src/middlewares/error.middleware.ts:12-50 | a response is written exactly when the classified status is one Node accepts; it says success false with a non-empty message, hides the stack in production, and carries 400, 500 or the error's own status; otherwise `next` gets the RangeError |
| ErrorMiddleware.ValidationErrorIs400 | backend/src/middlewares/error.middleware.ts:24-28 | a ValidationError with field messages is answered 400 with those messages joined by ", ", whatever its code |
| ErrorMiddleware.CastErrorIs400 | backend/src/middlewares/error.middleware.ts:29-31 | a CastError is answered 400 with "Resource not found with id of <value>" |
| ErrorMiddleware.DuplicateKeyIs400 | backend/src/middlewares/error.middleware.ts:32-36 | code 11000 with keyValue, not claimed by an earlier branch, is answered 400 listing the keys |
| ErrorMiddleware.OtherErrorsKeepTheirStatus | backend/src/middlewares/error.middleware.ts:37-39 | any error no earlier branch claims (including a ValidationError without `errors` and code 11000 without `keyValue`) keeps its non-zero status code or gets 500, and an empty message becomes "Internal Server Error" |
| Schema.PathMessage | backend/src/middlewares/error.middleware.ts:26 | every failed schema path has a non-empty Mongoose message |
| Schema.StoreErrorsAre400 | backend/src/middlewares/error.middleware.ts:24-36 | every validation or duplicate-key error the store throws would be answered 400, with the path messages joined or the duplicate field named |
| Schema.MissingPathAnswered | backend/src/middlewares/error.middleware.ts:24-28 | a document missing a required path is answered 400, and the path's "is required" message is among the error's messages |
| EventModel.Validate | backend/src/models/event.ts:20-52 | an event document is accepted exactly when no path fails (required strings, meetingType and ticketType enums, price required exactly for paid events, ticketType defaulting to "paid"); an accepted one is a valid event with the same fields; a document without an address is always refused for it |
| EventModel.ValidRoundTrip | backend/src/models/event.ts:20-52 | every valid event passes validation and comes back unchanged |
| TicketModel.Validate | backend/src/models/ticket.ts:11-20 | a ticket is accepted exactly when its price is present and at least 0 and its status is absent or in the schema enum; the status defaults to "active"; the other fields are kept |
| TransactionModel.Validate | backend/src/models/transaction.ts:13-24 | a transaction is accepted exactly when amount and type are present and the type and status lie in their enums; the status defaults to "pending"; the other fields are kept |
| UserModel.Validate | backend/src/models/user.ts:12-21 | a user is accepted exactly when username and accessToken are non-empty; roles default to ["user"]; the other fields are kept |
| Store.NewEvent | backend/src/models/event.ts:22-26 | `Event.create` succeeds only with a validated event whose eventId no stored event has |
| Store.NewTicket | backend/src/models/ticket.ts:16 | `Ticket.create` succeeds only with a validated ticket whose tokenId, when present, no stored ticket has |
| Store.NewTxn | backend/src/models/transaction.ts:19 | `Transaction.create` succeeds only with a validated transaction whose txHash, when present, no stored transaction has |
| Store.NewUser | backend/src/models/user.ts:14-15 | `User.create` succeeds only with a validated user whose username and uid (missing counts as a value) no stored user has |
| Store.Db.CreateEvent | backend/src/controllers/eventController.ts:53-67 | an accepted event is appended and its id returned; a refused one writes nothing and returns the error |
| Store.Db.CreateTicket | backend/src/controllers/eventController.ts:172-178 | an accepted ticket is appended and its id returned; a refused one writes nothing |
| Store.Db.CreateTransaction | backend/src/controllers/paymentController.ts:102-110 | an accepted transaction is appended and its id returned; a refused one writes nothing |
| Store.Db.CreateUser | backend/src/controllers/userController.ts:30-35 | an accepted user is appended and its id returned; a refused one writes nothing |
| Store.Db.UpdateTicketStatus | backend/src/controllers/paymentController.ts:140-142 | only the ticket's status changes, and a missing ticket changes nothing |
| Store.Db.PushEventTicket | backend/src/controllers/eventController.ts:181-182 | only the event's ticket list changes, by one appended reference |
| Store.Db.SaveTransaction | backend/src/controllers/paymentController.ts:136-138 | a txHash held by another transaction is refused with a duplicate key error and nothing written; otherwise only that transaction's hash and status change |
| Store.Db.UpdateTransactionStatus | backend/src/controllers/paymentController.ts:165-169 | only the transaction's status changes |
| Store.Db.UpdateAccessToken | backend/src/controllers/userController.ts:24-28 | only the user's access token changes |
| EventController.CreateWith | backend/src/controllers/eventController.ts:18-67 | refused exactly when the handler's own checks fail, each with its own answer in the source's order: an unparsable form 400, no user 401, a falsy required field (capacity 0 included) 400, a paid event without a positive price 400, an unknown user 404; past the checks, `Event.create`'s error goes to `next` and an accepted document is created; success appends exactly the event built from the form with the caller as organizer, price 0 when free and no tickets; nothing else writes |
| EventController.CreateAsWrittenNeverCreates | backend/src/controllers/eventController.ts:53-67 | as written, `create` never creates an event and never writes |
| EventController.CreateAsWrittenFailsOnAddress | backend/src/controllers/eventController.ts:53-67 | as written, every form that passes the handler's checks fails in `Event.create` with a validation error naming `address` |
| EventController.CreateSucceedsOnCompleteForm | backend/src/controllers/eventController.ts:53-67 | with the address passed, a complete form with valid enums and a fresh key creates a valid event with that key, the caller as organizer, the form's address and no tickets |
| EventController.CreateKeepsInv | backend/src/controllers/eventController.ts:53-67 | creating an event keeps the store invariant |
| EventController.Create | backend/src/controllers/eventController.ts:9-78 | the corrected handler (it passes the form's address, see Findings): its reply and new state are those of `CreateOutcome` |
| EventController.Get | backend/src/controllers/eventController.ts:92-118 | with an id: the event with that public id, or 404 exactly when none has it; without: the 10 newest events passing the filter, newest first, and no passing event is left out unless the page is full of newer ones |
| EventController.MineListsOwnEvents | backend/src/controllers/eventController.ts:105-108 | with `mine=true` a known caller is listed only events they organize |
| EventController.Admission | backend/src/controllers/eventController.ts:156-178 | full exactly when the count of tickets of every status reaches capacity; then a duplicate exactly when the user holds any ticket for the event; otherwise the new ticket is active, at the given price, with the fresh token, or `Ticket.create`'s error |
| EventController.AdmissionKeepsInv | backend/src/controllers/eventController.ts:172-178 | storing an admitted ticket keeps the store invariant |
| EventController.RegisterOutcome | backend/src/controllers/eventController.ts:141-187 | no user 401, empty eventId 400, unknown event 404, unknown user 404, then a full event 400 "Event capacity reached" (checked first) and an existing ticket 400 "already registered"; a `Ticket.create` error goes to `next`; an admitted ticket is answered 201 and is exactly the ticket appended and referenced from the event; every other outcome writes nothing |
| EventController.RegisterKeepsInv | backend/src/controllers/eventController.ts:172-182 | registration keeps the store invariant |
| EventController.RegisterOnlyOnce | backend/src/controllers/eventController.ts:162-169 | after a successful registration, the same user registering again for the same event is refused 400 |
| EventController.Register | backend/src/controllers/eventController.ts:132-192 | the handler's reply and new state are those of `RegisterOutcome` |
| EventController.Check | backend/src/controllers/eventController.ts:203-222 | answered 200 exactly when user, id, user record and event all exist, and then `registered` is true exactly when some ticket of that event is owned by the caller; otherwise, in the source's order, no user 401, empty id 400, unknown user 404, unknown event 404 |
| EventController.Entries | backend/src/controllers/eventController.ts:264-269 | one entry per ticket id, in order, each with the ticket's status |
| EventController.EventTickets | backend/src/controllers/eventController.ts:257-269 | the event's tickets: as many as the ticket count, each a ticket of the event with its status, newest first, none missing |
| EventController.GetRegistrations | backend/src/controllers/eventController.ts:238-270 | answered 200 exactly when the caller organizes the found event, with all its tickets and their count; no user 401, empty id 400, unknown user 404, unknown event 404, and a known caller who does not organize the found event exactly 403 |
| EventController.Views | backend/src/controllers/eventController.ts:306-321 | one view per ticket id, in order, with its token and status |
| EventController.OwnedTickets | backend/src/controllers/eventController.ts:296-321 | the user's tickets: as many as they own, each owned by them with its token and status, newest first, none missing |
| EventController.MyTickets | backend/src/controllers/eventController.ts:288-323 | answered 200 exactly when the caller is a known user, with all their tickets; no user is exactly 401 and an unknown user exactly 404 |
| EventController.VerifyTicketOutcome | backend/src/controllers/eventController.ts:344-386 | 400 exactly for a missing payload; an unknown token is answered "Ticket not found", a used ticket "Ticket already used", both writing nothing; otherwise the first ticket with the token is marked used and reported; success marks the first ticket with the token used and it was not used before; a failure changes nothing, and then either no ticket has the token or the first one that has it is used |
| EventController.VerifyKeepsInv | backend/src/controllers/eventController.ts:373-374 | redeeming a ticket keeps the store invariant |
| EventController.VerifyIsSingleUse | backend/src/controllers/eventController.ts:366-374 | after an admission the same payload is answered "Ticket already used" and changes nothing |
| EventController.VerifyAdmitsAnyUnusedTicket | backend/src/controllers/eventController.ts:366-374 | a ticket of any status but used, cancelled and transferred included, is admitted and becomes used |
| EventController.VerifyTicket | backend/src/controllers/eventController.ts:335-391 | the handler's reply and new state are those of `VerifyTicketOutcome` |
| PaymentController.Buy | backend/src/controllers/paymentController.ts:78-119 | events and users never change; a full event is exactly 400 "Event capacity reached" and an existing ticket exactly 400 "already registered", both writing nothing; a `Ticket.create` error is a 500 writing nothing; a `Transaction.create` error is a 500 leaving the ticket; a failed approve call is a 500 leaving both the ticket and the purchase; when all succeed the answer is 200 with the new ticket and purchase; success appends exactly one active ticket and one pending purchase keyed by the payment id, from payer to organizer, for that ticket at its price; a failure half way leaves the ticket, or both records |
| PaymentController.ApproveOutcome | backend/src/controllers/paymentController.ts:62-119 | 401 exactly without a user; a failed platform lookup is a 500; 404 exactly when the metadata's event or the user is missing, "Event not found" when the event is and "User not found" when only the user is; refusals write nothing; otherwise the outcome is `Buy` at `event.price \|\| metadata.price` |
| PaymentController.ApproveKeepsInv | backend/src/controllers/paymentController.ts:93-110 | whatever the platform answers, approval keeps the store invariant |
| PaymentController.BuyKeepsInv | backend/src/controllers/paymentController.ts:78-113 | every outcome of the admission, the two inserts and the approve call keeps the invariant |
| PaymentController.PendingPurchaseKeepsInv | backend/src/controllers/paymentController.ts:102-110 | recording the pending purchase of an unpaid ticket under a new hash keeps the invariant |
| PaymentController.ApprovedTicketActiveWhilePending | backend/src/controllers/paymentController.ts:93-110 | after approval the ticket is already active while its purchase is pending, keyed by the payment id, and pays for exactly that ticket |
| PaymentController.Approve | backend/src/controllers/paymentController.ts:59-124 | the handler's reply and new state are those of `ApproveOutcome` |
| PaymentController.CompleteOutcome | backend/src/controllers/paymentController.ts:133-155 | 404 exactly when no transaction has the payment id as hash, writing nothing; a txid held by another transaction is a 500 writing nothing; otherwise the transaction gets the txid and is completed and its ticket made active, and the answer is 200 with that transaction when the platform acknowledges the complete call, otherwise a 500 with the platform's error |
| PaymentController.SettleKeepsInv | backend/src/controllers/paymentController.ts:136-142 | settling under a free hash keeps the invariant |
| PaymentController.CompleteKeepsInv | backend/src/controllers/paymentController.ts:133-142 | completion keeps the invariant |
| PaymentController.CompleteIsNotRepeatable | backend/src/controllers/paymentController.ts:133-138 | after a completion under a different txid no transaction has the payment id, and repeating the call is answered 404 |
| PaymentController.Complete | backend/src/controllers/paymentController.ts:129-156 | the handler's reply and new state are those of `CompleteOutcome` |
| PaymentController.CancelOutcome | backend/src/controllers/paymentController.ts:165-180 | 404 exactly when no transaction has the payment id, writing nothing; otherwise the answer is always 200 with that transaction, which only changes to failed, keeping its hash, and its ticket becomes cancelled |
| PaymentController.CancelKeepsInv | backend/src/controllers/paymentController.ts:165-175 | cancellation keeps the invariant |
| PaymentController.CancelFreesNoSeat | backend/src/controllers/paymentController.ts:173-175 | cancelling changes neither an event's ticket count nor any user's existing-ticket lookup |
| PaymentController.Cancel | backend/src/controllers/paymentController.ts:161-185 | the handler's reply and new state are those of `CancelOutcome` |
| PaymentController.IncompleteOutcome | backend/src/controllers/paymentController.ts:17-53 | only 404 (no transaction), 400 (memo differs, or not successful, each exactly in its case) or no reply; no payment in the body, or a failed Horizon lookup, is exactly no reply writing nothing; once Horizon confirms, a txid held by another transaction writes nothing and otherwise the transaction is settled, always with no reply; refusals write nothing, and anything written implies Horizon confirmed the payment |
| PaymentController.IncompleteMatchesComplete | backend/src/controllers/paymentController.ts:35-43 | once Horizon confirms, the handler writes exactly what `completePayment` writes for the same payment id and txid, and answers nothing |
| PaymentController.IncompleteKeepsInv | backend/src/controllers/paymentController.ts:35-43 | the incomplete-payment handler keeps the invariant |
| PaymentController.HandleIncomplete | backend/src/controllers/paymentController.ts:10-54 | the handler's reply and new state are those of `IncompleteOutcome` |
| UserController.SigninOutcome | backend/src/controllers/userController.ts:10-55 | a missing body or failed platform check goes to `next` and a missing user is thrown, writing nothing; a known uid is always answered 200 and gets only its access token replaced; a new uid that the store refuses is thrown with the store's error, writing nothing; a new uid that the store accepts is answered 200 and appends exactly one user with the given username, uid, roles (or the default) and token; success answers 200 with that user and the token as cookie |
| UserController.SigninKeepsInv | backend/src/controllers/userController.ts:21-36 | sign-in keeps the store invariant |
| UserController.SigninTwiceKeepsOneUser | backend/src/controllers/userController.ts:21-36 | signing in again with the same uid, under any token, finds the same user and creates none |
| UserController.Signin | backend/src/controllers/userController.ts:5-56 | the handler's reply and new state are those of `SigninOutcome`, and on success the session holds the stored user record |
| UserController.Session.SignOut | backend/src/controllers/userController.ts:58-65 | the session's user is cleared and the answer is always 200 "User signed out" |
| VerifyMiddleware.Truthy | backend/src/middlewares/verify.ts:28-30 | `v \|\| null`: kept exactly when present and non-empty |
| VerifyMiddleware.SelectToken | backend/src/middlewares/verify.ts:25-30 | the chosen token is never empty, and from a bearer header contains no space |
| VerifyMiddleware.SelectTokenFromHeader | backend/src/middlewares/verify.ts:27-29 | with a bearer header the token is the header's second space-separated field, and the cookie is not consulted |
| VerifyMiddleware.SelectTokenFromCookie | backend/src/middlewares/verify.ts:26-30 | without a bearer header the token is the cookie when it is non-empty |
| VerifyMiddleware.EmptyBearerIgnoresCookie | backend/src/middlewares/verify.ts:25-34 | "Bearer " with nothing after it gives no token, whatever the cookie holds |
| VerifyMiddleware.VerifyUser | backend/src/middlewares/verify.ts:18-54 | no token: 401 and `req.user` untouched; a failed platform check: 401; otherwise `next` is called with `req.user` exactly the platform's username |
| Scenarios.RegisteredTicketAdmitsOnce | backend/src/controllers/eventController.ts:366-374 | a freshly registered ticket is admitted on its first scan and answered "Ticket already used" on the second |
| Scenarios.PaidRegistrationCompletes | backend/src/controllers/paymentController.ts:136-142 | after approval, completion under a free txid answers 200 for the new purchase, completes it under the txid and leaves its ticket active |
| Scenarios.CancelledPurchaseBlocksRetry | backend/src/controllers/paymentController.ts:78-90 | after approval and cancellation the same user is refused 400 both by paying again and by free registration |
| Scenarios.HolderIsRefused | backend/src/controllers/eventController.ts:162-169 | a user holding a ticket of any status for an event is refused 400 by both registration paths |

## Findings

| source | as written | input that shows it | evidently intended | confidence | as-written member | corrected member |
|---|---|---|---|---|---|---|
| backend/src/controllers/eventController.ts:53-67 | `Event.create` is never given `address`, which the Event schema requires (backend/src/models/event.ts:32), although the form sends it | any form passing the handler's checks from a known user, e.g. title "T", date "2025-01-01", time "10:00", location "L", capacity 5, ticketType "free", address "A": `Event.create` throws a ValidationError for `address` | pass the form's `address` to `Event.create` | not executed | EventController.CreateAsWritten, EventController.CreateAsWrittenNeverCreates, EventController.CreateAsWrittenFailsOnAddress | EventController.CreateOutcome, EventController.CreateSucceedsOnCompleteForm |

`EventController.Create` and `EventController.CreateKeepsInv` use the corrected definition.

## Left out

- Ties in `createdAt`. The store keeps millisecond timestamps, so two inserts in the same
  millisecond tie, and the database may order tied documents either way. `Query.NewestFirst`,
  `Query.Newest` and the listings built on them fix one of those orders: strictly reverse
  insertion order.
- Concurrency. Each handler is one atomic step, so the races between the capacity or duplicate
  checks and the insert are not modelled.
- Dates and numbers.
  - `date` is cast by Mongoose to a Date; the model keeps it as the submitted string.
  - Prices and capacities are integers; fractional numbers and JSON parsing details are not
    modelled.
  - A form field is either a string (empty when absent or blank) or an optional integer.
- Undefined query values. Mongoose drops a filter key whose value is `undefined`; the model
  always filters on the given value. This matters for a missing `paymentId`, and for a sign-in
  whose user has no `uid`.
- Presentation. `populate`, `lean`, `select`, the success message texts and the response
  bodies' extra fields are not modelled; replies carry document ids. Left out in particular:
  - the event summary in `myTickets`;
  - the `email` in `getRegistrations`, which the User schema does not have;
  - logging.
- Validation on `save()`. Only the unique `txHash` index is checked on save; the ticket save in
  `verifyTicket` and the event save in `register` cannot fail in the model.
- Catch-all handlers. The 500 catch of `verifyTicket` and of the payment handlers is reached
  only through the modelled store and platform errors. Express's handling of a rejected
  handler promise (`Http.Unhandled`) is not modelled further.
- Sessions. Cookie options and session storage are not modelled; `Session` holds only
  `currentUser`.
- Not part of this model:
  - the image upload (`backend/src/middlewares/upload.ts`) beyond the stored file name;
  - the route tables;
  - `server.ts`;
  - the organizer model;
  - the users' `ticketsOwned` list, which no handler writes;
  - the frontend.
- Error texts. A duplicate key error's message omits the database name. `Schema.ToAppError`
  gives only the fields the error handler reads.
