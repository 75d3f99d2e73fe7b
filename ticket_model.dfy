/** The Ticket schema of backend/src/models/ticket.ts. */
module TicketModel {
  import opened Wrappers
  import opened Ids
  import opened Schema

  /** The schema's enum lists active, used and transferred. `Cancelled` is not in it: it is the
      value `cancelPayment` writes through an update that skips validation. */
  datatype TicketStatus = Active | Used | Transferred | Cancelled

  function StatusName(s: TicketStatus): string
  {
    match s
    case Active => "active"
    case Used => "used"
    case Transferred => "transferred"
    case Cancelled => "cancelled"
  }

  const SchemaStatuses: seq<string> := ["active", "used", "transferred"]

  /** Whether the schema's enum admits the status. */
  predicate InSchemaEnum(s: TicketStatus)
  {
    StatusName(s) in SchemaStatuses
  }

  datatype Ticket = Ticket(
    event: EventRef,
    owner: UserRef,
    price: int,
    tokenId: Option<string>,
    status: TicketStatus)

  /** The schema's constraint on a stored ticket that no later update can undo. */
  predicate Valid(k: Ticket)
  {
    k.price >= 0
  }

  /** The document a handler hands to `Ticket.create`. */
  datatype TicketDoc = TicketDoc(
    event: EventRef,
    owner: UserRef,
    price: Option<int>,
    tokenId: Option<string>,
    status: Option<string>)

  function Failures(d: TicketDoc): seq<PathError>
  {
    (if d.price.None? then [Required("price")]
     else if d.price.value < 0 then [BelowMin("price", d.price.value, 0)]
     else [])
    + EnumString("status", d.status, SchemaStatuses, false)
  }

  function ParseStatus(s: Option<string>): TicketStatus
  {
    if s == Some("used") then Used
    else if s == Some("transferred") then Transferred
    else Active
  }

  /** Schema validation of a new ticket: the price is required and at least 0, and the status,
      "active" by default, must be one of the schema's enum. */
  function Validate(d: TicketDoc): (r: Result<Ticket, DbError>)
    ensures r.Ok? <==> d.price.Some? && d.price.value >= 0 && (d.status.None? || d.status.value in SchemaStatuses)
    ensures r.Ok? ==> Valid(r.value) && InSchemaEnum(r.value.status)
    ensures r.Ok? ==> r.value == Ticket(d.event, d.owner, d.price.value, d.tokenId, r.value.status)
    ensures r.Ok? ==> StatusName(r.value.status) == (if d.status.None? then "active" else d.status.value)
    ensures r.Err? ==> r.error == ValidationFailed("Ticket", Failures(d)) && Failures(d) != []
  {
    if Failures(d) != [] then Err(ValidationFailed("Ticket", Failures(d)))
    else Ok(Ticket(d.event, d.owner, d.price.value, d.tokenId, ParseStatus(d.status)))
  }
}
