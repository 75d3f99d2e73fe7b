/** The Event schema of backend/src/models/event.ts. */
module EventModel {
  import opened Wrappers
  import opened Ids
  import opened Schema

  datatype MeetingType = Physical | Online
  datatype TicketType = Free | Paid

  function MeetingTypeName(m: MeetingType): string
  {
    match m
    case Physical => "physical"
    case Online => "online"
  }

  function TicketTypeName(t: TicketType): string
  {
    match t
    case Free => "free"
    case Paid => "paid"
  }

  /** A stored event. `tickets` is the informational list of back-references that `register`
      appends to; capacity is enforced by counting tickets, not by this list. */
  datatype Event = Event(
    eventId: string,
    title: string,
    description: Option<string>,
    meetingType: MeetingType,
    date: string,
    time: string,
    address: string,
    location: string,
    capacity: int,
    ticketType: TicketType,
    price: Option<int>,
    image: Option<string>,
    organizer: UserRef,
    tickets: seq<TicketRef>)

  /** The schema's constraints on a stored event: the required strings are present and a paid
      event has a price. */
  predicate Valid(e: Event)
  {
    && e.eventId != "" && e.title != "" && e.date != "" && e.time != ""
    && e.address != "" && e.location != ""
    && (e.ticketType == Paid ==> e.price.Some?)
  }

  /** The document a handler hands to `Event.create`. An empty string stands for a field that
      is absent; a missing `ticketType` takes the schema default. */
  datatype EventDoc = EventDoc(
    eventId: string,
    title: string,
    description: Option<string>,
    meetingType: string,
    date: string,
    time: string,
    address: string,
    location: string,
    capacity: int,
    ticketType: Option<string>,
    price: Option<int>,
    image: Option<string>,
    organizer: UserRef,
    tickets: seq<TicketRef>)

  /** `ticketType` after the schema default "paid" is applied. */
  function TicketTypeOf(d: EventDoc): string
  {
    if d.ticketType.None? then "paid" else d.ticketType.value
  }

  /** The failed paths, in schema order. `price` is required exactly when the ticket type is "paid". */
  function Failures(d: EventDoc): seq<PathError>
  {
    RequiredString("eventId", d.eventId)
    + RequiredString("title", d.title)
    + EnumString("meetingType", Some(d.meetingType), ["physical", "online"], true)
    + RequiredString("date", d.date)
    + RequiredString("time", d.time)
    + RequiredString("address", d.address)
    + RequiredString("location", d.location)
    + EnumString("ticketType", Some(TicketTypeOf(d)), ["free", "paid"], true)
    + (if TicketTypeOf(d) == "paid" && d.price.None? then [Required("price")] else [])
  }

  /** Schema validation of a new event. An accepted document becomes a valid event with the same
      fields; a rejected one names every failed path, and a document without an address is
      always rejected for it. */
  function Validate(d: EventDoc): (r: Result<Event, DbError>)
    ensures r.Ok? ==> Valid(r.value) && ToDoc(r.value) == d.(ticketType := Some(TicketTypeOf(d)))
    ensures r.Ok? && d.ticketType.None? ==> r.value.ticketType == Paid
    ensures r.Err? ==> r.error == ValidationFailed("Event", Failures(d)) && Failures(d) != []
    ensures d.address == "" ==> r.Err? && Required("address") in r.error.failures
  {
    if Failures(d) != [] then Err(ValidationFailed("Event", Failures(d)))
    else
      Ok(Event(d.eventId, d.title, d.description,
               if d.meetingType == "physical" then Physical else Online,
               d.date, d.time, d.address, d.location, d.capacity,
               if TicketTypeOf(d) == "free" then Free else Paid,
               d.price, d.image, d.organizer, d.tickets))
  }

  /** The document that stores `e` unchanged. */
  function ToDoc(e: Event): EventDoc
  {
    EventDoc(e.eventId, e.title, e.description, MeetingTypeName(e.meetingType), e.date, e.time,
             e.address, e.location, e.capacity, Some(TicketTypeName(e.ticketType)), e.price,
             e.image, e.organizer, e.tickets)
  }

  /** Every valid event passes validation and comes back unchanged. */
  lemma ValidRoundTrip(e: Event)
    requires Valid(e)
    ensures Validate(ToDoc(e)) == Ok(e)
  {
    assert Failures(ToDoc(e)) == [];
  }
}
