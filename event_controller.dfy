/** The event handlers of backend/src/controllers/eventController.ts. Each handler that writes
    is a method on the database, specified by a function of the state it starts from; the
    handlers that only read are functions. */
module EventController {
  import opened Wrappers
  import opened Ids
  import opened Query
  import opened Schema
  import opened ErrorMiddleware
  import opened EventModel
  import opened TicketModel
  import opened Store
  import opened Http

  // ---------------------------------------------------------------------------------------
  // create

  /** The parsed `eventDetails` form field. An empty string is a field left blank or absent;
      `capacity` and `price` are absent when `None`. */
  datatype EventDetails = EventDetails(
    title: string,
    description: Option<string>,
    date: string,
    time: string,
    location: string,
    meetingType: string,
    capacity: Option<int>,
    ticketType: string,
    price: Option<int>,
    address: string)

  /** The handler's own check of the required fields, by JavaScript truthiness. */
  predicate MissingRequired(d: EventDetails)
  {
    d.title == "" || d.date == "" || d.time == "" || d.location == ""
    || d.capacity.None? || d.capacity.value == 0 || d.ticketType == ""
  }

  /** A paid event needs a positive price. */
  predicate LacksPrice(d: EventDetails)
  {
    d.ticketType == "paid" && (d.price.None? || d.price.value <= 0)
  }

  /** The document handed to `Event.create`: a free event is priced 0, and `address` is what the
      handler passes for that path. */
  function NewEventDoc(d: EventDetails, key: string, organizer: UserRef, image: Option<string>, address: string): EventDoc
    requires !MissingRequired(d)
  {
    EventDoc(key, d.title, d.description, d.meetingType, d.date, d.time, address, d.location,
             d.capacity.value, Some(d.ticketType), if d.ticketType == "free" then Some(0) else d.price,
             image, organizer, [])
  }

  /** Whether the handler's own checks let the form through to the store. */
  predicate FormAccepted(s: State, user: Option<string>, details: Option<EventDetails>)
  {
    details.Some? && Present(user) && !MissingRequired(details.value) && !LacksPrice(details.value)
    && UserByName(s, user.value).Some?
  }

  /** The create handler with the address the document receives: `withAddress` false is the
      handler as written, which never passes one. `details` is `None` when the form field does
      not parse; `key` is the fresh uuid and `image` the uploaded file's name. */
  function CreateWith(s: State, user: Option<string>, details: Option<EventDetails>, image: Option<string>,
                      key: string, withAddress: bool): (r: Outcome<EventRef>)
    ensures r.reply.Done? ==>
      && FormAccepted(s, user, details)
      && var doc := NewEventDoc(details.value, key, UserByName(s, user.value).value, image,
                                if withAddress then details.value.address else "");
      && NewEvent(s, doc).Ok?
      && r.reply == Done(201, |s.events|)
      && r.state == s.(events := s.events + [NewEvent(s, doc).value])
    ensures !r.reply.Done? ==> r.state == s
    ensures r.reply.Refused? <==> !FormAccepted(s, user, details)
    ensures r.reply.Refused? ==> r.reply.status in {400, 401, 404}
    ensures details.None? ==> r.reply == Refused(400, InvalidEventDetails)
    ensures details.Some? && !Present(user) ==> r.reply == Refused(401, UserNotFoundUnauthorized)
    ensures details.Some? && Present(user) && MissingRequired(details.value) ==>
      r.reply == Refused(400, MissingRequiredFields)
    ensures details.Some? && Present(user) && !MissingRequired(details.value) && LacksPrice(details.value) ==>
      r.reply == Refused(400, PaidNeedsPrice)
    ensures (details.Some? && Present(user) && !MissingRequired(details.value) && !LacksPrice(details.value)
             && UserByName(s, user.value).None?) ==> r.reply == Refused(404, UserNotFound)
    ensures FormAccepted(s, user, details) ==>
      var doc := NewEventDoc(details.value, key, UserByName(s, user.value).value, image,
                             if withAddress then details.value.address else "");
      && (NewEvent(s, doc).Ok? ==> r.reply.Done?)
      && (NewEvent(s, doc).Err? ==> r.reply == Next(StoreError(NewEvent(s, doc).error)))
  {
    if details.None? then Outcome(s, Refused(400, InvalidEventDetails))
    else if !Present(user) then Outcome(s, Refused(401, UserNotFoundUnauthorized))
    else if MissingRequired(details.value) then Outcome(s, Refused(400, MissingRequiredFields))
    else if LacksPrice(details.value) then Outcome(s, Refused(400, PaidNeedsPrice))
    else if UserByName(s, user.value).None? then Outcome(s, Refused(404, UserNotFound))
    else
      var doc := NewEventDoc(details.value, key, UserByName(s, user.value).value, image,
                             if withAddress then details.value.address else "");
      match NewEvent(s, doc)
      case Err(e) => Outcome(s, Next(StoreError(e)))
      case Ok(ev) => Outcome(s.(events := s.events + [ev]), Done(201, |s.events|))
  }

  /** `create` as written: the document never receives the form's address. */
  function CreateAsWritten(s: State, user: Option<string>, details: Option<EventDetails>, image: Option<string>,
                           key: string): Outcome<EventRef>
  {
    CreateWith(s, user, details, image, key, false)
  }

  /** `create` with the form's address passed through, as the schema requires. */
  function CreateOutcome(s: State, user: Option<string>, details: Option<EventDetails>, image: Option<string>,
                         key: string): Outcome<EventRef>
  {
    CreateWith(s, user, details, image, key, true)
  }

  /** As written, no event is ever created and nothing is written. */
  lemma CreateAsWrittenNeverCreates(s: State, user: Option<string>, details: Option<EventDetails>,
                                    image: Option<string>, key: string)
    ensures !CreateAsWritten(s, user, details, image, key).reply.Done?
    ensures CreateAsWritten(s, user, details, image, key).state == s
  {
    if FormAccepted(s, user, details) {
      var doc := NewEventDoc(details.value, key, UserByName(s, user.value).value, image, "");
      assert NewEvent(s, doc).Err?;
    }
  }

  /** As written, once the handler's own checks pass, `Event.create` throws a validation error
      whose failures include the missing address; `Schema.MissingPathAnswered` turns that into
      the 400 answer naming the path. */
  lemma CreateAsWrittenFailsOnAddress(s: State, user: Option<string>, details: Option<EventDetails>,
                                      image: Option<string>, key: string)
    requires FormAccepted(s, user, details)
    ensures var r := CreateAsWritten(s, user, details, image, key).reply;
      && r.Next? && r.err.StoreError? && r.err.dbError.ValidationFailed?
      && Required("address") in r.err.dbError.failures
  {
    var doc := NewEventDoc(details.value, key, UserByName(s, user.value).value, image, "");
    assert NewEvent(s, doc).Err?;
  }

  /** With the address passed, a complete form from a registered user creates the event. */
  lemma CreateSucceedsOnCompleteForm(s: State, user: string, d: EventDetails, image: Option<string>, key: string)
    requires FormAccepted(s, Some(user), Some(d))
    requires d.meetingType in ["physical", "online"] && d.ticketType in ["free", "paid"] && d.address != ""
    requires key != "" && EventByKey(s, key).None?
    ensures CreateOutcome(s, Some(user), Some(d), image, key).reply == Done(201, |s.events|)
    ensures var ev := CreateOutcome(s, Some(user), Some(d), image, key).state.events[|s.events|];
            ev.eventId == key && ev.organizer == UserByName(s, user).value && ev.address == d.address
            && ev.tickets == [] && EventModel.Valid(ev)
  {
    var doc := NewEventDoc(d, key, UserByName(s, user).value, image, d.address);
    assert EventModel.Failures(doc) == [];
  }

  lemma CreateKeepsInv(s: State, user: Option<string>, details: Option<EventDetails>, image: Option<string>, key: string)
    requires Inv(s)
    ensures Inv(CreateOutcome(s, user, details, image, key).state)
  {
    var r := CreateOutcome(s, user, details, image, key);
    if r.reply.Done? {
      var doc := NewEventDoc(details.value, key, UserByName(s, user.value).value, image, details.value.address);
      InsertEventKeeps(s, NewEvent(s, doc).value);
    }
  }

  /** The handler. */
  method Create(db: Db, user: Option<string>, details: Option<EventDetails>, image: Option<string>, key: string)
      returns (reply: Reply<EventRef>)
    modifies db
    ensures reply == CreateOutcome(old(db.Contents()), user, details, image, key).reply
    ensures db.Contents() == CreateOutcome(old(db.Contents()), user, details, image, key).state
  {
    if details.None? {
      return Refused(400, InvalidEventDetails);
    }
    if !Present(user) {
      return Refused(401, UserNotFoundUnauthorized);
    }
    var d := details.value;
    if MissingRequired(d) {
      return Refused(400, MissingRequiredFields);
    }
    if LacksPrice(d) {
      return Refused(400, PaidNeedsPrice);
    }
    var organizer := UserByName(db.Contents(), user.value);
    if organizer.None? {
      return Refused(404, UserNotFound);
    }
    var created := db.CreateEvent(NewEventDoc(d, key, organizer.value, image, d.address));
    if created.Err? {
      return Next(StoreError(created.error));
    }
    reply := Done(201, created.value);
  }

  // ---------------------------------------------------------------------------------------
  // get

  datatype Listing = One(event: EventRef) | Many(events: seq<EventRef>)

  const PageSize := 10

  function AnyEvent(): Event -> bool { (e: Event) => true }

  /** The listing filter: the caller's own events when `mine` is "true" and the caller is a
      known user, otherwise every event. */
  function ListFilter(s: State, mine: Option<string>, user: Option<string>): Event -> bool
  {
    if mine == Some("true") && Present(user) && UserByName(s, user.value).Some? then
      OrganizedBy(UserByName(s, user.value).value)
    else AnyEvent()
  }

  /** One event by its public id, or the ten newest events that pass the filter, newest first. */
  function Get(s: State, id: string, mine: Option<string>, user: Option<string>): (r: Reply<Listing>)
    ensures r.Done? || r == Refused(404, EventNotFound)
    ensures r.Refused? <==> id != "" && forall i :: 0 <= i < |s.events| ==> s.events[i].eventId != id
    ensures r.Done? ==> r.status == 200 && (r.value.One? <==> id != "")
    ensures r.Done? && r.value.One? ==> r.value.event < |s.events| && s.events[r.value.event].eventId == id
    ensures r.Done? && r.value.Many? ==>
      var page := r.value.events;
      && |page| == Min(Count(s.events, ListFilter(s, mine, user)), PageSize)
      && (forall k :: 0 <= k < |page| ==> page[k] < |s.events| && ListFilter(s, mine, user)(s.events[page[k]]))
      && (forall k, l :: 0 <= k < l < |page| ==> page[k] > page[l])
      && (forall i :: 0 <= i < |s.events| && ListFilter(s, mine, user)(s.events[i]) && i !in page ==>
            |page| == PageSize && forall k :: 0 <= k < |page| ==> i < page[k])
  {
    if id != "" then
      match EventByKey(s, id)
      case None => Refused(404, EventNotFound)
      case Some(e) =>
        assert WithEventId(id)(s.events[e]);
        Done(200, One(e))
    else
      Done(200, Many(Newest(s.events, ListFilter(s, mine, user), PageSize)))
  }

  /** With `mine=true`, a known caller sees only events they organize. */
  lemma MineListsOwnEvents(s: State, user: string)
    requires user != "" && UserByName(s, user).Some?
    ensures var r := Get(s, "", Some("true"), Some(user));
            r.Done? && r.value.Many? &&
            forall k :: 0 <= k < |r.value.events| ==> s.events[r.value.events[k]].organizer == UserByName(s, user).value
  {
    var r := Get(s, "", Some("true"), Some(user));
    forall k | 0 <= k < |r.value.events|
      ensures s.events[r.value.events[k]].organizer == UserByName(s, user).value
    {
      assert OrganizedBy(UserByName(s, user).value)(s.events[r.value.events[k]]);
    }
  }

  // ---------------------------------------------------------------------------------------
  // register

  /** The ticket `register` and `approvePayment` hand to `Ticket.create`. */
  function AdmissionDoc(e: EventRef, u: UserRef, price: Option<int>, token: string): TicketDoc
  {
    TicketDoc(e, u, price, Some(token), Some("active"))
  }

  /** Why an admission is refused: the event is full, the user already holds a ticket for it,
      or `Ticket.create` threw. */
  datatype Refusal = NoSeat | HoldsTicket | Rejected(error: DbError)

  /** The checks `register` and `approvePayment` share, in their order, then the new ticket:
      seats are counted over tickets of every status, and the ticket is active at `price`. */
  function Admission(s: State, e: EventRef, u: UserRef, price: Option<int>, token: string): (r: Result<Ticket, Refusal>)
    requires e < |s.events|
    ensures r == Err(NoSeat) <==> TicketCount(s, e) >= s.events[e].capacity
    ensures r == Err(HoldsTicket) <==> TicketCount(s, e) < s.events[e].capacity && TicketFor(s, e, u).Some?
    ensures r.Ok? ==>
      && TicketCount(s, e) < s.events[e].capacity && TicketFor(s, e, u).None?
      && price.Some? && price.value >= 0
      && r.value == Ticket(e, u, price.value, Some(token), Active)
      && TicketByToken(s, token).None?
    ensures r.Err? && r.error.Rejected? ==>
      NewTicket(s, AdmissionDoc(e, u, price, token)).Err? && r.error.error == NewTicket(s, AdmissionDoc(e, u, price, token)).error
  {
    if TicketCount(s, e) >= s.events[e].capacity then Err(NoSeat)
    else if TicketFor(s, e, u).Some? then Err(HoldsTicket)
    else
      match NewTicket(s, AdmissionDoc(e, u, price, token))
      case Err(x) => Err(Rejected(x))
      case Ok(k) => Ok(k)
  }

  /** An admitted ticket keeps the invariant when stored. */
  lemma AdmissionKeepsInv(s: State, e: EventRef, u: UserRef, price: Option<int>, token: string)
    requires Inv(s) && e < |s.events| && u < |s.users|
    requires Admission(s, e, u, price, token).Ok?
    ensures Inv(s.(tickets := s.tickets + [Admission(s, e, u, price, token).value]))
  {
    InsertTicketKeeps(s, Admission(s, e, u, price, token).value);
  }

  /** The state after ticket `k` is stored and recorded on event `e`. */
  function Record(s: State, e: EventRef, k: Ticket): State
    requires e < |s.events|
  {
    var s1 := s.(tickets := s.tickets + [k]);
    s1.(events := s1.events[e := s1.events[e].(tickets := s1.events[e].tickets + [|s.tickets|])])
  }

  /** Registration for the event with public id `eventId`; `token` is the fresh uuid. The
      ticket is priced at the event's price. */
  function RegisterOutcome(s: State, user: Option<string>, eventId: string, token: string): (r: Outcome<TicketRef>)
    ensures r.reply.Done? ==>
      && Present(user) && EventByKey(s, eventId).Some? && UserByName(s, user.value).Some?
      && var e := EventByKey(s, eventId).value;
      && var adm := Admission(s, e, UserByName(s, user.value).value, s.events[e].price, token);
      && adm.Ok?
      && r.reply == Done(201, |s.tickets|)
      && r.state == Record(s, e, adm.value)
    ensures !r.reply.Done? ==> r.state == s
    ensures !Present(user) ==> r.reply == Refused(401, UserNotFoundUnauthorized)
    ensures Present(user) && eventId == "" ==> r.reply == Refused(400, MissingEventId)
    ensures Present(user) && eventId != "" && EventByKey(s, eventId).None? ==> r.reply == Refused(404, EventNotFound)
    ensures Present(user) && eventId != "" && EventByKey(s, eventId).Some? && UserByName(s, user.value).None? ==>
      r.reply == Refused(404, UserNotFound)
    ensures Present(user) && eventId != "" && EventByKey(s, eventId).Some? && UserByName(s, user.value).Some? ==>
      var e := EventByKey(s, eventId).value;
      var adm := Admission(s, e, UserByName(s, user.value).value, s.events[e].price, token);
      && (adm == Err(NoSeat) ==> r.reply == Refused(400, CapacityReached))
      && (adm == Err(HoldsTicket) ==> r.reply == Refused(400, AlreadyRegistered))
      && (adm.Err? && adm.error.Rejected? ==> r.reply == Next(StoreError(adm.error.error)))
      && (adm.Ok? ==> r.reply == Done(201, |s.tickets|))
  {
    if !Present(user) then Outcome(s, Refused(401, UserNotFoundUnauthorized))
    else if eventId == "" then Outcome(s, Refused(400, MissingEventId))
    else if EventByKey(s, eventId).None? then Outcome(s, Refused(404, EventNotFound))
    else if UserByName(s, user.value).None? then Outcome(s, Refused(404, UserNotFound))
    else
      var e := EventByKey(s, eventId).value;
      match Admission(s, e, UserByName(s, user.value).value, s.events[e].price, token)
      case Err(NoSeat) => Outcome(s, Refused(400, CapacityReached))
      case Err(HoldsTicket) => Outcome(s, Refused(400, AlreadyRegistered))
      case Err(Rejected(x)) => Outcome(s, Next(StoreError(x)))
      case Ok(k) => Outcome(Record(s, e, k), Done(201, |s.tickets|))
  }

  lemma RegisterKeepsInv(s: State, user: Option<string>, eventId: string, token: string)
    requires Inv(s)
    ensures Inv(RegisterOutcome(s, user, eventId, token).state)
  {
    var r := RegisterOutcome(s, user, eventId, token);
    if r.reply.Done? {
      var e := EventByKey(s, eventId).value;
      var u := UserByName(s, user.value).value;
      var k := Admission(s, e, u, s.events[e].price, token).value;
      AdmissionKeepsInv(s, e, u, s.events[e].price, token);
      PushTicketRefKeeps(s.(tickets := s.tickets + [k]), e, |s.tickets|);
    }
  }

  /** A registration that succeeded cannot be repeated: the second attempt by the same user for
      the same event is refused with 400, whatever token it draws. */
  lemma RegisterOnlyOnce(s: State, user: Option<string>, eventId: string, token: string, token': string)
    requires RegisterOutcome(s, user, eventId, token).reply.Done?
    ensures var s' := RegisterOutcome(s, user, eventId, token).state;
            var r := RegisterOutcome(s', user, eventId, token').reply;
            r.Refused? && r.status == 400
  {
    var s' := RegisterOutcome(s, user, eventId, token).state;
    var e := EventByKey(s, eventId).value;
    var u := UserByName(s, user.value).value;
    var k := Admission(s, e, u, s.events[e].price, token).value;
    FindFirstAgree(s.events, WithEventId(eventId), s'.events, WithEventId(eventId));
    assert UserByName(s', user.value) == UserByName(s, user.value);
    FindFirstAppend(s.tickets, k, ForAttendee(e, u));
    assert s'.tickets == s.tickets + [k];
    assert TicketFor(s', e, u).Some?;
  }

  /** The handler. */
  method Register(db: Db, user: Option<string>, eventId: string, token: string) returns (reply: Reply<TicketRef>)
    modifies db
    ensures reply == RegisterOutcome(old(db.Contents()), user, eventId, token).reply
    ensures db.Contents() == RegisterOutcome(old(db.Contents()), user, eventId, token).state
  {
    if !Present(user) {
      return Refused(401, UserNotFoundUnauthorized);
    }
    if eventId == "" {
      return Refused(400, MissingEventId);
    }
    var event := EventByKey(db.Contents(), eventId);
    if event.None? {
      return Refused(404, EventNotFound);
    }
    var attendee := UserByName(db.Contents(), user.value);
    if attendee.None? {
      return Refused(404, UserNotFound);
    }
    var e, u := event.value, attendee.value;
    if TicketCount(db.Contents(), e) >= db.events[e].capacity {
      return Refused(400, CapacityReached);
    }
    if TicketFor(db.Contents(), e, u).Some? {
      return Refused(400, AlreadyRegistered);
    }
    var created := db.CreateTicket(AdmissionDoc(e, u, db.events[e].price, token));
    if created.Err? {
      return Next(StoreError(created.error));
    }
    db.PushEventTicket(e, created.value);
    reply := Done(201, created.value);
  }

  // ---------------------------------------------------------------------------------------
  // check

  /** Whether the caller holds a ticket, of any status, for the event. */
  function Check(s: State, user: Option<string>, id: string): (r: Reply<bool>)
    ensures r.Done? ==> r.status == 200
    ensures r.Done? <==> Present(user) && id != "" && UserByName(s, user.value).Some? && EventByKey(s, id).Some?
    ensures r.Done? ==>
      (r.value <==> exists k :: 0 <= k < |s.tickets| && s.tickets[k].event == EventByKey(s, id).value
                                                  && s.tickets[k].owner == UserByName(s, user.value).value)
    ensures r.Refused? ==> r.status in {400, 401, 404}
    ensures !Present(user) ==> r == Refused(401, Unauthorized)
    ensures Present(user) && id == "" ==> r == Refused(400, EventIdRequired)
    ensures Present(user) && id != "" && UserByName(s, user.value).None? ==> r == Refused(404, UserNotFound)
    ensures (Present(user) && id != "" && UserByName(s, user.value).Some?
             && EventByKey(s, id).None?) ==> r == Refused(404, EventNotFound)
  {
    if !Present(user) then Refused(401, Unauthorized)
    else if id == "" then Refused(400, EventIdRequired)
    else if UserByName(s, user.value).None? then Refused(404, UserNotFound)
    else if EventByKey(s, id).None? then Refused(404, EventNotFound)
    else
      var found := TicketFor(s, EventByKey(s, id).value, UserByName(s, user.value).value);
      assert found.Some? ==> ForAttendee(EventByKey(s, id).value, UserByName(s, user.value).value)(s.tickets[found.value]);
      Done(200, found.Some?)
  }

  // ---------------------------------------------------------------------------------------
  // getRegistrations

  /** One entry of the organizer's list: the ticket, its owner's username if the owner exists,
      and its status. The User schema has no email path, so the list's `email` is always absent. */
  datatype Registration = Registration(id: TicketRef, username: Option<string>, status: TicketStatus)

  datatype Registrations = Registrations(count: nat, entries: seq<Registration>)

  function EntryIds(es: seq<Registration>): seq<TicketRef>
  {
    seq(|es|, j requires 0 <= j < |es| => es[j].id)
  }

  function Entries(s: State, ids: seq<TicketRef>): (es: seq<Registration>)
    requires forall j :: 0 <= j < |ids| ==> ids[j] < |s.tickets|
    ensures |es| == |ids| && EntryIds(es) == ids
    ensures forall j :: 0 <= j < |es| ==> es[j].status == s.tickets[ids[j]].status
  {
    seq(|ids|, j requires 0 <= j < |ids| =>
      var owner := s.tickets[ids[j]].owner;
      Registration(ids[j], if owner < |s.users| then Some(s.users[owner].username) else None, s.tickets[ids[j]].status))
  }

  /** Every ticket of event `e`, newest first. */
  function EventTickets(s: State, e: EventRef): (es: seq<Registration>)
    ensures |es| == TicketCount(s, e)
    ensures forall j :: 0 <= j < |es| ==>
      es[j].id < |s.tickets| && s.tickets[es[j].id].event == e && es[j].status == s.tickets[es[j].id].status
    ensures forall j, l :: 0 <= j < l < |es| ==> es[j].id > es[l].id
    ensures forall k :: 0 <= k < |s.tickets| && s.tickets[k].event == e ==> k in EntryIds(es)
  {
    var found := NewestFirst(s.tickets, ForEvent(e));
    assert forall j :: 0 <= j < |found| ==> s.tickets[found[j]].event == e by {
      forall j | 0 <= j < |found| ensures s.tickets[found[j]].event == e {
        assert ForEvent(e)(s.tickets[found[j]]);
      }
    }
    assert forall k :: 0 <= k < |s.tickets| && s.tickets[k].event == e ==> k in found by {
      forall k | 0 <= k < |s.tickets| && s.tickets[k].event == e ensures k in found {
        assert ForEvent(e)(s.tickets[k]);
      }
    }
    Entries(s, found)
  }

  /** The event's organizer, and only they, sees the event's tickets and their number. */
  function GetRegistrations(s: State, user: Option<string>, id: string): (r: Reply<Registrations>)
    ensures r.Done? <==>
      && Present(user) && id != "" && UserByName(s, user.value).Some? && EventByKey(s, id).Some?
      && s.events[EventByKey(s, id).value].organizer == UserByName(s, user.value).value
    ensures r.Done? ==>
      && r.status == 200
      && r.value.entries == EventTickets(s, EventByKey(s, id).value)
      && r.value.count == |r.value.entries|
    ensures r.Refused? && r.status == 403 ==>
      && Present(user) && UserByName(s, user.value).Some? && EventByKey(s, id).Some?
      && s.events[EventByKey(s, id).value].organizer != UserByName(s, user.value).value
    ensures !Present(user) ==> r == Refused(401, Unauthorized)
    ensures Present(user) && id == "" ==> r == Refused(400, EventIdRequired)
    ensures Present(user) && id != "" && UserByName(s, user.value).None? ==> r == Refused(404, UserNotFound)
    ensures Present(user) && id != "" && UserByName(s, user.value).Some? && EventByKey(s, id).None? ==>
      r == Refused(404, EventNotFound)
    ensures (Present(user) && id != "" && UserByName(s, user.value).Some? && EventByKey(s, id).Some?
             && s.events[EventByKey(s, id).value].organizer != UserByName(s, user.value).value) ==>
      r == Refused(403, NotOrganizer)
  {
    if !Present(user) then Refused(401, Unauthorized)
    else if id == "" then Refused(400, EventIdRequired)
    else if UserByName(s, user.value).None? then Refused(404, UserNotFound)
    else if EventByKey(s, id).None? then Refused(404, EventNotFound)
    else
      var e := EventByKey(s, id).value;
      if s.events[e].organizer != UserByName(s, user.value).value then Refused(403, NotOrganizer)
      else
        var entries := EventTickets(s, e);
        Done(200, Registrations(|entries|, entries))
  }

  // ---------------------------------------------------------------------------------------
  // myTickets

  /** One of the caller's tickets: its id, its token (the QR payload) and its status. */
  datatype TicketView = TicketView(id: TicketRef, ticketId: Option<string>, status: TicketStatus)

  function ViewIds(vs: seq<TicketView>): seq<TicketRef>
  {
    seq(|vs|, j requires 0 <= j < |vs| => vs[j].id)
  }

  function Views(s: State, ids: seq<TicketRef>): (vs: seq<TicketView>)
    requires forall j :: 0 <= j < |ids| ==> ids[j] < |s.tickets|
    ensures |vs| == |ids| && ViewIds(vs) == ids
    ensures forall j :: 0 <= j < |vs| ==>
      vs[j].ticketId == s.tickets[ids[j]].tokenId && vs[j].status == s.tickets[ids[j]].status
  {
    seq(|ids|, j requires 0 <= j < |ids| => TicketView(ids[j], s.tickets[ids[j]].tokenId, s.tickets[ids[j]].status))
  }

  /** Every ticket user `u` owns, newest first. */
  function OwnedTickets(s: State, u: UserRef): (vs: seq<TicketView>)
    ensures |vs| == Count(s.tickets, OwnedBy(u))
    ensures forall j :: 0 <= j < |vs| ==>
      && vs[j].id < |s.tickets| && s.tickets[vs[j].id].owner == u
      && vs[j].ticketId == s.tickets[vs[j].id].tokenId && vs[j].status == s.tickets[vs[j].id].status
    ensures forall j, l :: 0 <= j < l < |vs| ==> vs[j].id > vs[l].id
    ensures forall k :: 0 <= k < |s.tickets| && s.tickets[k].owner == u ==> k in ViewIds(vs)
  {
    var found := NewestFirst(s.tickets, OwnedBy(u));
    assert forall j :: 0 <= j < |found| ==> s.tickets[found[j]].owner == u by {
      forall j | 0 <= j < |found| ensures s.tickets[found[j]].owner == u {
        assert OwnedBy(u)(s.tickets[found[j]]);
      }
    }
    assert forall k :: 0 <= k < |s.tickets| && s.tickets[k].owner == u ==> k in found by {
      forall k | 0 <= k < |s.tickets| && s.tickets[k].owner == u ensures k in found {
        assert OwnedBy(u)(s.tickets[k]);
      }
    }
    Views(s, found)
  }

  /** The caller's tickets, once the caller is known. */
  function MyTickets(s: State, user: Option<string>): (r: Reply<seq<TicketView>>)
    ensures r.Done? <==> Present(user) && UserByName(s, user.value).Some?
    ensures r.Done? ==> r.status == 200 && r.value == OwnedTickets(s, UserByName(s, user.value).value)
    ensures r.Refused? ==> r.status in {401, 404}
    ensures !Present(user) ==> r == Refused(401, UserNotFoundUnauthorized)
    ensures Present(user) && UserByName(s, user.value).None? ==> r == Refused(404, UserNotFound)
  {
    if !Present(user) then Refused(401, UserNotFoundUnauthorized)
    else if UserByName(s, user.value).None? then Refused(404, UserNotFound)
    else Done(200, OwnedTickets(s, UserByName(s, user.value).value))
  }

  // ---------------------------------------------------------------------------------------
  // verifyTicket

  /** The body of a 200 answer: whether the ticket was admitted, why, and which ticket. */
  datatype Verification = Verification(success: bool, message: Message, ticket: Option<TicketRef>)

  /** Redeeming the ticket whose token is the QR payload's `ticketId` (`None` when the payload or
      its `ticketId` is missing). A ticket is admitted once, whatever other status it holds. */
  function VerifyTicketOutcome(s: State, qr: Option<string>): (r: Outcome<Verification>)
    ensures r.reply.Done? || r.reply == Refused(400, InvalidQrData)
    ensures r.reply.Refused? <==> !Present(qr)
    ensures r.reply.Done? ==> r.reply.status == 200
    ensures r.reply.Done? && r.reply.value.success ==>
      && r.reply.value.ticket.Some?
      && var k := r.reply.value.ticket.value;
      && k < |s.tickets| && s.tickets[k].tokenId == qr && s.tickets[k].status != Used
      && r.state == SetTicketStatus(s, k, Used)
    ensures r.reply.Done? && !r.reply.value.success ==>
      r.state == s &&
      forall k :: 0 <= k < |s.tickets| && s.tickets[k].tokenId == qr ==>
        exists j :: 0 <= j <= k && s.tickets[j].tokenId == qr && s.tickets[j].status == Used
    ensures r.reply.Refused? ==> r.state == s
    ensures Present(qr) && TicketByToken(s, qr.value).None? ==>
      r == Outcome(s, Done(200, Verification(false, TicketNotFound, None)))
    ensures Present(qr) && TicketByToken(s, qr.value).Some? ==>
      var k := TicketByToken(s, qr.value).value;
      && (s.tickets[k].status == Used ==> r == Outcome(s, Done(200, Verification(false, TicketAlreadyUsed, None))))
      && (s.tickets[k].status != Used ==>
            r == Outcome(SetTicketStatus(s, k, Used), Done(200, Verification(true, TicketVerified, Some(k)))))
  {
    if !Present(qr) then Outcome(s, Refused(400, InvalidQrData))
    else
      match TicketByToken(s, qr.value)
      case None => Outcome(s, Done(200, Verification(false, TicketNotFound, None)))
      case Some(k) =>
        assert WithToken(qr.value)(s.tickets[k]);
        if s.tickets[k].status == Used then
          Outcome(s, Done(200, Verification(false, TicketAlreadyUsed, None)))
        else
          Outcome(SetTicketStatus(s, k, Used), Done(200, Verification(true, TicketVerified, Some(k))))
  }

  lemma VerifyKeepsInv(s: State, qr: Option<string>)
    requires Inv(s)
    ensures Inv(VerifyTicketOutcome(s, qr).state)
  {
    var r := VerifyTicketOutcome(s, qr);
    if r.reply.Done? && r.reply.value.success {
      SetTicketStatusKeeps(s, r.reply.value.ticket.value, Used);
    }
  }

  /** A ticket is admitted at most once: presenting the same QR payload again right after an
      admission is answered "Ticket already used" and changes nothing. */
  lemma VerifyIsSingleUse(s: State, qr: Option<string>)
    requires VerifyTicketOutcome(s, qr).reply.Done? && VerifyTicketOutcome(s, qr).reply.value.success
    ensures VerifyTicketOutcome(VerifyTicketOutcome(s, qr).state, qr).reply
            == Done(200, Verification(false, TicketAlreadyUsed, None))
    ensures VerifyTicketOutcome(VerifyTicketOutcome(s, qr).state, qr).state == VerifyTicketOutcome(s, qr).state
  {
    var k := VerifyTicketOutcome(s, qr).reply.value.ticket.value;
    var s' := SetTicketStatus(s, k, Used);
    FindFirstAgree(s.tickets, WithToken(qr.value), s'.tickets, WithToken(qr.value));
  }

  /** Nothing but "used" stops an admission: a cancelled or transferred ticket is admitted too. */
  lemma VerifyAdmitsAnyUnusedTicket(s: State, k: TicketRef)
    requires k < |s.tickets| && s.tickets[k].status != Used
    requires Present(s.tickets[k].tokenId) && TicketByToken(s, s.tickets[k].tokenId.value) == Some(k)
    ensures VerifyTicketOutcome(s, s.tickets[k].tokenId).reply.value.success
    ensures VerifyTicketOutcome(s, s.tickets[k].tokenId).state.tickets[k].status == Used
  {
  }

  /** The handler. */
  method VerifyTicket(db: Db, qr: Option<string>) returns (reply: Reply<Verification>)
    modifies db
    ensures reply == VerifyTicketOutcome(old(db.Contents()), qr).reply
    ensures db.Contents() == VerifyTicketOutcome(old(db.Contents()), qr).state
  {
    if !Present(qr) {
      return Refused(400, InvalidQrData);
    }
    var found := TicketByToken(db.Contents(), qr.value);
    if found.None? {
      return Done(200, Verification(false, TicketNotFound, None));
    }
    var k := found.value;
    if db.tickets[k].status == Used {
      return Done(200, Verification(false, TicketAlreadyUsed, None));
    }
    db.UpdateTicketStatus(k, Used);
    reply := Done(200, Verification(true, TicketVerified, Some(k)));
  }
}
