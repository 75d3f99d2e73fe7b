/** The document store the controllers share: the four collections, the queries the controllers
    run against them, what inserts and saves check, and the invariant the application keeps. */
module Store {
  import opened Wrappers
  import opened Ids
  import opened Query
  import opened Schema
  import opened EventModel
  import opened TicketModel
  import opened TransactionModel
  import opened UserModel

  /** The contents of the four collections, each in insertion order. */
  datatype State = State(
    events: seq<Event>,
    users: seq<User>,
    tickets: seq<Ticket>,
    txns: seq<Transaction>)

  const Empty := State([], [], [], [])

  // ---------------------------------------------------------------------------------------
  // Query filters

  function WithEventId(key: string): Event -> bool { (e: Event) => e.eventId == key }
  function OrganizedBy(u: UserRef): Event -> bool { (e: Event) => e.organizer == u }
  function WithUsername(name: string): User -> bool { (u: User) => u.username == name }
  function WithUid(uid: Option<string>): User -> bool { (u: User) => u.uid == uid }
  function ForEvent(e: EventRef): Ticket -> bool { (k: Ticket) => k.event == e }
  function ForAttendee(e: EventRef, u: UserRef): Ticket -> bool { (k: Ticket) => k.event == e && k.owner == u }
  function OwnedBy(u: UserRef): Ticket -> bool { (k: Ticket) => k.owner == u }
  function WithToken(token: string): Ticket -> bool { (k: Ticket) => k.tokenId == Some(token) }
  function WithTxHash(hash: string): Transaction -> bool { (x: Transaction) => x.txHash == Some(hash) }

  // ---------------------------------------------------------------------------------------
  // Lookups

  /** `Event.findOne({ eventId })`. */
  function EventByKey(s: State, key: string): Option<EventRef> { FindFirst(s.events, WithEventId(key)) }
  /** `User.findOne({ username })`. */
  function UserByName(s: State, name: string): Option<UserRef> { FindFirst(s.users, WithUsername(name)) }
  /** `User.findOne({ uid })`. */
  function UserByUid(s: State, uid: string): Option<UserRef> { FindFirst(s.users, WithUid(Some(uid))) }
  /** `Ticket.findOne({ tokenId })`. */
  function TicketByToken(s: State, token: string): Option<TicketRef> { FindFirst(s.tickets, WithToken(token)) }
  /** `Ticket.findOne({ event, owner })`. */
  function TicketFor(s: State, e: EventRef, u: UserRef): Option<TicketRef> { FindFirst(s.tickets, ForAttendee(e, u)) }
  /** `Ticket.countDocuments({ event })`: tickets of every status. */
  function TicketCount(s: State, e: EventRef): nat { Count(s.tickets, ForEvent(e)) }
  /** `Transaction.findOne({ txHash })`. */
  function TxnByHash(s: State, hash: string): Option<TxnRef> { FindFirst(s.txns, WithTxHash(hash)) }

  /** The number of tickets an event admits: its capacity, or none when that is not positive. */
  function Seats(e: Event): nat { if e.capacity < 0 then 0 else e.capacity }

  // ---------------------------------------------------------------------------------------
  // Inserts and saves: schema validation first, then the unique indexes

  /** `Event.create(d)`: the event to append, or the error thrown. */
  function NewEvent(s: State, d: EventDoc): (r: Result<Event, DbError>)
    ensures r.Ok? ==> r == EventModel.Validate(d) && EventByKey(s, r.value.eventId).None?
  {
    match EventModel.Validate(d)
    case Err(e) => Err(e)
    case Ok(ev) =>
      if EventByKey(s, ev.eventId).Some? then Err(DuplicateKey("events", "eventId", ev.eventId))
      else Ok(ev)
  }

  /** `Ticket.create(d)`; the unique index on `tokenId` ignores tickets without one. */
  function NewTicket(s: State, d: TicketDoc): (r: Result<Ticket, DbError>)
    ensures r.Ok? ==> r == TicketModel.Validate(d)
    ensures r.Ok? && r.value.tokenId.Some? ==> TicketByToken(s, r.value.tokenId.value).None?
  {
    match TicketModel.Validate(d)
    case Err(e) => Err(e)
    case Ok(k) =>
      if k.tokenId.Some? && TicketByToken(s, k.tokenId.value).Some? then
        Err(DuplicateKey("tickets", "tokenId", k.tokenId.value))
      else Ok(k)
  }

  /** `Transaction.create(d)`; the unique index on `txHash` ignores transactions without one. */
  function NewTxn(s: State, d: TransactionDoc): (r: Result<Transaction, DbError>)
    ensures r.Ok? ==> r == TransactionModel.Validate(d)
    ensures r.Ok? && r.value.txHash.Some? ==> TxnByHash(s, r.value.txHash.value).None?
  {
    match TransactionModel.Validate(d)
    case Err(e) => Err(e)
    case Ok(x) =>
      if x.txHash.Some? && TxnByHash(s, x.txHash.value).Some? then
        Err(DuplicateKey("transactions", "txHash", x.txHash.value))
      else Ok(x)
  }

  /** `User.create(d)`: unique `username` and unique `uid`. The `uid` index is not sparse, so a
      second user without one collides with the first on the missing value. */
  function NewUser(s: State, d: UserDoc): (r: Result<User, DbError>)
    ensures r.Ok? ==> r == UserModel.Validate(d) && UserByName(s, d.username).None?
    ensures r.Ok? ==> FindFirst(s.users, WithUid(d.uid)).None?
  {
    match UserModel.Validate(d)
    case Err(e) => Err(e)
    case Ok(u) =>
      if UserByName(s, u.username).Some? then Err(DuplicateKey("users", "username", u.username))
      else if FindFirst(s.users, WithUid(u.uid)).Some? then
        Err(DuplicateKey("users", "uid", if u.uid.Some? then u.uid.value else "null"))
      else Ok(u)
  }

  /** Whether saving transaction `x` with `hash` collides with another transaction's `txHash`. */
  predicate HashTakenByOther(s: State, x: TxnRef, hash: Option<string>)
  {
    hash.Some? && exists j | 0 <= j < |s.txns| :: j != x && s.txns[j].txHash == hash
  }

  /** `Ticket.findByIdAndUpdate(k, { status })`: no validation, and nothing happens when the
      ticket does not exist. */
  function SetTicketStatus(s: State, k: TicketRef, status: TicketStatus): State
  {
    if k < |s.tickets| then s.(tickets := s.tickets[k := s.tickets[k].(status := status)]) else s
  }

  // ---------------------------------------------------------------------------------------
  // The invariant

  predicate Below(r: Option<nat>, n: nat) { r.None? || r.value < n }

  /** Every event's organizer exists. */
  ghost predicate OrganizersExist(s: State)
  {
    forall i :: 0 <= i < |s.events| ==> s.events[i].organizer < |s.users|
  }

  /** The ticket list `refs` of event `e` names existing tickets of `e` only. */
  ghost predicate ListsOwnTickets(refs: seq<TicketRef>, tickets: seq<Ticket>, e: EventRef)
  {
    forall j :: 0 <= j < |refs| ==> refs[j] < |tickets| && tickets[refs[j]].event == e
  }

  ghost predicate EventsListOwnTickets(s: State)
  {
    forall i :: 0 <= i < |s.events| ==> ListsOwnTickets(s.events[i].tickets, s.tickets, i)
  }

  /** Every ticket's event and owner exist. */
  ghost predicate TicketRefsExist(s: State)
  {
    forall k :: 0 <= k < |s.tickets| ==> s.tickets[k].event < |s.events| && s.tickets[k].owner < |s.users|
  }

  /** Every transaction's parties and ticket, where set, exist. */
  ghost predicate TxnRefsExist(s: State)
  {
    forall x :: 0 <= x < |s.txns| ==>
      Below(s.txns[x].from, |s.users|) && Below(s.txns[x].to, |s.users|) && Below(s.txns[x].ticket, |s.tickets|)
  }

  /** Every reference points at an existing document; an event lists only its own tickets. */
  ghost predicate RefsValid(s: State)
  {
    OrganizersExist(s) && EventsListOwnTickets(s) && TicketRefsExist(s) && TxnRefsExist(s)
  }

  /** A list of existing tickets of `e` stays one while tickets are added or restatused. */
  lemma ListsOwnTicketsKept(refs: seq<TicketRef>, tickets: seq<Ticket>, tickets': seq<Ticket>, e: EventRef)
    requires ListsOwnTickets(refs, tickets, e)
    requires |tickets| <= |tickets'|
    requires forall k :: 0 <= k < |tickets| ==> tickets'[k].event == tickets[k].event
    ensures ListsOwnTickets(refs, tickets', e)
  {
  }

  lemma EventsListOwnTicketsKept(s: State, tickets': seq<Ticket>)
    requires EventsListOwnTickets(s)
    requires |s.tickets| <= |tickets'|
    requires forall k :: 0 <= k < |s.tickets| ==> tickets'[k].event == s.tickets[k].event
    ensures EventsListOwnTickets(s.(tickets := tickets'))
  {
    forall i | 0 <= i < |s.events| ensures ListsOwnTickets(s.events[i].tickets, tickets', i) {
      ListsOwnTicketsKept(s.events[i].tickets, s.tickets, tickets', i);
    }
  }

  /** The unique indexes: eventId, username, uid, and where present tokenId and txHash. */
  ghost predicate UniqueKeys(s: State)
  {
    && (forall i, j :: 0 <= i < j < |s.events| ==> s.events[i].eventId != s.events[j].eventId)
    && (forall i, j :: 0 <= i < j < |s.users| ==> s.users[i].username != s.users[j].username)
    && (forall i, j :: 0 <= i < j < |s.users| ==> s.users[i].uid != s.users[j].uid)
    && (forall i, j :: 0 <= i < j < |s.tickets| && s.tickets[i].tokenId.Some? ==> s.tickets[i].tokenId != s.tickets[j].tokenId)
    && (forall i, j :: 0 <= i < j < |s.txns| && s.txns[i].txHash.Some? ==> s.txns[i].txHash != s.txns[j].txHash)
  }

  /** Every stored record keeps its schema's lasting constraints. */
  ghost predicate RecordsValid(s: State)
  {
    && (forall i :: 0 <= i < |s.events| ==> EventModel.Valid(s.events[i]))
    && (forall k :: 0 <= k < |s.tickets| ==> TicketModel.Valid(s.tickets[k]))
    && (forall u :: 0 <= u < |s.users| ==> UserModel.Valid(s.users[u]))
  }

  /** No event has more tickets, of any status, than it has seats. */
  ghost predicate WithinCapacity(s: State)
  {
    forall e :: 0 <= e < |s.events| ==> TicketCount(s, e) <= Seats(s.events[e])
  }

  /** No two tickets share an (event, owner) pair. */
  ghost predicate OneTicketPerAttendee(s: State)
  {
    forall i, j :: 0 <= i < j < |s.tickets| ==>
      !(s.tickets[i].event == s.tickets[j].event && s.tickets[i].owner == s.tickets[j].owner)
  }

  /** Transaction `x` pays for ticket `k`: a purchase from the ticket's owner to the event's
      organizer for the ticket's price. */
  ghost predicate PaysFor(s: State, x: Transaction, k: TicketRef)
  {
    && k < |s.tickets|
    && x.kind == Purchase
    && x.from == Some(s.tickets[k].owner)
    && x.amount == s.tickets[k].price
    && s.tickets[k].event < |s.events|
    && x.to == Some(s.events[s.tickets[k].event].organizer)
  }

  /** Every transaction linked to a ticket pays for it, and no ticket is paid by two. */
  ghost predicate PaymentsLinked(s: State)
  {
    && (forall x :: 0 <= x < |s.txns| && s.txns[x].ticket.Some? ==> PaysFor(s, s.txns[x], s.txns[x].ticket.value))
    && (forall x, y :: 0 <= x < y < |s.txns| && s.txns[x].ticket.Some? ==> s.txns[x].ticket != s.txns[y].ticket)
  }

  ghost predicate Inv(s: State)
  {
    RefsValid(s) && UniqueKeys(s) && RecordsValid(s) && WithinCapacity(s) && OneTicketPerAttendee(s) && PaymentsLinked(s)
  }

  lemma EmptyInv()
    ensures Inv(Empty)
  {
  }

  // ---------------------------------------------------------------------------------------
  // What each kind of write needs to keep the invariant

  /** Appending an event that passed `NewEvent`, owned by an existing user and listing no tickets. */
  lemma InsertEventKeeps(s: State, ev: Event)
    requires Inv(s)
    requires EventModel.Valid(ev) && ev.organizer < |s.users| && ev.tickets == []
    requires EventByKey(s, ev.eventId).None?
    ensures Inv(s.(events := s.events + [ev]))
  {
    AddEventKeepsRefs(s, ev);
    AddEventKeepsCapacity(s, ev);
    AddEventKeepsPayments(s, ev);
    AddEventKeepsKeys(s, ev);
  }

  lemma AddEventKeepsKeys(s: State, ev: Event)
    requires UniqueKeys(s) && RecordsValid(s) && EventModel.Valid(ev) && EventByKey(s, ev.eventId).None?
    ensures UniqueKeys(s.(events := s.events + [ev])) && RecordsValid(s.(events := s.events + [ev]))
  {
    forall i | 0 <= i < |s.events| ensures s.events[i].eventId != ev.eventId {
      assert !WithEventId(ev.eventId)(s.events[i]);
    }
  }

  lemma AddEventKeepsRefs(s: State, ev: Event)
    requires RefsValid(s) && ev.organizer < |s.users| && ev.tickets == []
    ensures RefsValid(s.(events := s.events + [ev]))
  {
    var s' := s.(events := s.events + [ev]);
    forall i | 0 <= i < |s'.events| ensures ListsOwnTickets(s'.events[i].tickets, s'.tickets, i) {
      if i < |s.events| {
        assert s'.events[i] == s.events[i];
      }
    }
  }

  lemma AddEventKeepsCapacity(s: State, ev: Event)
    requires WithinCapacity(s) && TicketRefsExist(s)
    ensures WithinCapacity(s.(events := s.events + [ev]))
  {
    var s' := s.(events := s.events + [ev]);
    var e := |s.events|;
    assert forall k :: 0 <= k < |s.tickets| ==> !ForEvent(e)(s.tickets[k]);
    forall i | 0 <= i < |s'.events| ensures TicketCount(s', i) <= Seats(s'.events[i]) {
      if i < e {
        assert s'.events[i] == s.events[i];
      } else {
        assert TicketCount(s', i) == 0;
      }
    }
  }

  lemma AddEventKeepsPayments(s: State, ev: Event)
    requires PaymentsLinked(s)
    ensures PaymentsLinked(s.(events := s.events + [ev]))
  {
    var s' := s.(events := s.events + [ev]);
    forall x | 0 <= x < |s.txns| && s.txns[x].ticket.Some?
      ensures PaysFor(s', s.txns[x], s.txns[x].ticket.value)
    {
      assert PaysFor(s, s.txns[x], s.txns[x].ticket.value);
    }
  }

  /** Appending a user that passed `NewUser`. */
  lemma InsertUserKeeps(s: State, u: User)
    requires Inv(s)
    requires UserModel.Valid(u)
    requires UserByName(s, u.username).None? && FindFirst(s.users, WithUid(u.uid)).None?
    ensures Inv(s.(users := s.users + [u]))
  {
    AddUserKeepsKeys(s, u);
  }

  lemma AddUserKeepsKeys(s: State, u: User)
    requires UniqueKeys(s)
    requires UserByName(s, u.username).None? && FindFirst(s.users, WithUid(u.uid)).None?
    ensures UniqueKeys(s.(users := s.users + [u]))
  {
    forall i | 0 <= i < |s.users|
      ensures s.users[i].username != u.username && s.users[i].uid != u.uid
    {
      assert !WithUsername(u.username)(s.users[i]);
      assert !WithUid(u.uid)(s.users[i]);
    }
  }

  /** Appending a ticket for an existing event and user, when the event still has a free seat and
      the user holds no ticket for it, and its token is new. */
  lemma InsertTicketKeeps(s: State, k: Ticket)
    requires Inv(s)
    requires TicketModel.Valid(k) && k.event < |s.events| && k.owner < |s.users|
    requires k.tokenId.Some? ==> TicketByToken(s, k.tokenId.value).None?
    requires TicketCount(s, k.event) < Seats(s.events[k.event])
    requires TicketFor(s, k.event, k.owner).None?
    ensures Inv(s.(tickets := s.tickets + [k]))
  {
    AddTicketKeepsRefs(s, k);
    AddTicketKeepsCapacity(s, k);
    AddTicketKeepsPayments(s, k);
    AddTicketKeepsKeys(s, k);
  }

  lemma AddTicketKeepsKeys(s: State, k: Ticket)
    requires UniqueKeys(s) && RecordsValid(s) && TicketModel.Valid(k)
    requires k.tokenId.Some? ==> TicketByToken(s, k.tokenId.value).None?
    ensures UniqueKeys(s.(tickets := s.tickets + [k])) && RecordsValid(s.(tickets := s.tickets + [k]))
  {
    forall i | 0 <= i < |s.tickets| && k.tokenId.Some? ensures s.tickets[i].tokenId != k.tokenId {
      assert !WithToken(k.tokenId.value)(s.tickets[i]);
    }
  }

  lemma AddTicketKeepsRefs(s: State, k: Ticket)
    requires RefsValid(s) && k.event < |s.events| && k.owner < |s.users|
    ensures RefsValid(s.(tickets := s.tickets + [k]))
  {
    EventsListOwnTicketsKept(s, s.tickets + [k]);
  }

  lemma AddTicketKeepsCapacity(s: State, k: Ticket)
    requires WithinCapacity(s) && OneTicketPerAttendee(s) && k.event < |s.events|
    requires TicketCount(s, k.event) < Seats(s.events[k.event])
    requires TicketFor(s, k.event, k.owner).None?
    ensures WithinCapacity(s.(tickets := s.tickets + [k])) && OneTicketPerAttendee(s.(tickets := s.tickets + [k]))
  {
    var s' := s.(tickets := s.tickets + [k]);
    forall e | 0 <= e < |s.events| ensures TicketCount(s', e) <= Seats(s.events[e]) {
      CountAppend(s.tickets, k, ForEvent(e));
    }
    forall i | 0 <= i < |s.tickets| ensures !(s.tickets[i].event == k.event && s.tickets[i].owner == k.owner) {
      assert !ForAttendee(k.event, k.owner)(s.tickets[i]);
    }
  }

  lemma AddTicketKeepsPayments(s: State, k: Ticket)
    requires PaymentsLinked(s)
    ensures PaymentsLinked(s.(tickets := s.tickets + [k]))
  {
    var s' := s.(tickets := s.tickets + [k]);
    forall x | 0 <= x < |s.txns| && s.txns[x].ticket.Some?
      ensures PaysFor(s', s.txns[x], s.txns[x].ticket.value)
    {
      assert PaysFor(s, s.txns[x], s.txns[x].ticket.value);
    }
  }

  /** Recording ticket `r` on its own event (`event.tickets.push`, then `event.save()`). */
  lemma PushTicketRefKeeps(s: State, e: EventRef, r: TicketRef)
    requires Inv(s)
    requires e < |s.events| && r < |s.tickets| && s.tickets[r].event == e
    ensures Inv(s.(events := s.events[e := s.events[e].(tickets := s.events[e].tickets + [r])]))
  {
    PushRefKeepsRefs(s, e, r);
    PushRefKeepsCapacity(s, e, r);
    PushRefKeepsPayments(s, e, r);
    PushRefKeepsKeys(s, e, r);
  }

  lemma PushRefKeepsKeys(s: State, e: EventRef, r: TicketRef)
    requires UniqueKeys(s) && RecordsValid(s) && e < |s.events|
    ensures UniqueKeys(s.(events := s.events[e := s.events[e].(tickets := s.events[e].tickets + [r])]))
    ensures RecordsValid(s.(events := s.events[e := s.events[e].(tickets := s.events[e].tickets + [r])]))
  {
    var s' := s.(events := s.events[e := s.events[e].(tickets := s.events[e].tickets + [r])]);
    assert forall i :: 0 <= i < |s.events| ==> s'.events[i].eventId == s.events[i].eventId;
  }

  lemma PushRefKeepsRefs(s: State, e: EventRef, r: TicketRef)
    requires RefsValid(s) && e < |s.events| && r < |s.tickets| && s.tickets[r].event == e
    ensures RefsValid(s.(events := s.events[e := s.events[e].(tickets := s.events[e].tickets + [r])]))
  {
  }

  lemma PushRefKeepsCapacity(s: State, e: EventRef, r: TicketRef)
    requires WithinCapacity(s) && e < |s.events|
    ensures WithinCapacity(s.(events := s.events[e := s.events[e].(tickets := s.events[e].tickets + [r])]))
  {
    var s' := s.(events := s.events[e := s.events[e].(tickets := s.events[e].tickets + [r])]);
    forall i | 0 <= i < |s'.events| ensures TicketCount(s', i) <= Seats(s'.events[i]) {
      assert TicketCount(s', i) == TicketCount(s, i);
      assert Seats(s'.events[i]) == Seats(s.events[i]);
    }
  }

  lemma PushRefKeepsPayments(s: State, e: EventRef, r: TicketRef)
    requires PaymentsLinked(s) && e < |s.events|
    ensures PaymentsLinked(s.(events := s.events[e := s.events[e].(tickets := s.events[e].tickets + [r])]))
  {
    var s' := s.(events := s.events[e := s.events[e].(tickets := s.events[e].tickets + [r])]);
    forall x | 0 <= x < |s.txns| && s.txns[x].ticket.Some?
      ensures PaysFor(s', s.txns[x], s.txns[x].ticket.value)
    {
      assert PaysFor(s, s.txns[x], s.txns[x].ticket.value);
    }
  }

  /** Appending a transaction whose parties exist, whose hash is new, and which, when linked to a
      ticket, pays for that ticket and is the first to do so. */
  lemma InsertTxnKeeps(s: State, x: Transaction)
    requires Inv(s)
    requires Below(x.from, |s.users|) && Below(x.to, |s.users|) && Below(x.ticket, |s.tickets|)
    requires x.txHash.Some? ==> TxnByHash(s, x.txHash.value).None?
    requires x.ticket.Some? ==> PaysFor(s, x, x.ticket.value)
    requires x.ticket.Some? ==> forall y :: 0 <= y < |s.txns| ==> s.txns[y].ticket != x.ticket
    ensures Inv(s.(txns := s.txns + [x]))
  {
    AddTxnKeepsKeys(s, x);
    AddTxnKeepsPayments(s, x);
  }

  lemma AddTxnKeepsKeys(s: State, x: Transaction)
    requires UniqueKeys(s)
    requires x.txHash.Some? ==> TxnByHash(s, x.txHash.value).None?
    ensures UniqueKeys(s.(txns := s.txns + [x]))
  {
    forall y | 0 <= y < |s.txns| && x.txHash.Some? ensures s.txns[y].txHash != x.txHash {
      assert !WithTxHash(x.txHash.value)(s.txns[y]);
    }
  }

  lemma AddTxnKeepsPayments(s: State, x: Transaction)
    requires PaymentsLinked(s)
    requires x.ticket.Some? ==> PaysFor(s, x, x.ticket.value)
    requires x.ticket.Some? ==> forall y :: 0 <= y < |s.txns| ==> s.txns[y].ticket != x.ticket
    ensures PaymentsLinked(s.(txns := s.txns + [x]))
  {
  }

  /** A status update by id, valid or not, keeps the invariant: no part of it reads the status. */
  lemma SetTicketStatusKeeps(s: State, k: TicketRef, status: TicketStatus)
    requires Inv(s)
    ensures Inv(SetTicketStatus(s, k, status))
  {
    if k < |s.tickets| {
      var s' := SetTicketStatus(s, k, status);
      RestatusKeepsRefs(s, k, status);
      RestatusKeepsCapacity(s, k, status);
      RestatusKeepsPayments(s, k, status);
      assert UniqueKeys(s') by {
        assert forall i :: 0 <= i < |s.tickets| ==> s'.tickets[i].tokenId == s.tickets[i].tokenId;
      }
      assert RecordsValid(s') by {
        assert forall i :: 0 <= i < |s.tickets| ==> s'.tickets[i].price == s.tickets[i].price;
      }
    }
  }

  lemma RestatusKeepsRefs(s: State, k: TicketRef, status: TicketStatus)
    requires RefsValid(s) && k < |s.tickets|
    ensures RefsValid(SetTicketStatus(s, k, status))
  {
    var s' := SetTicketStatus(s, k, status);
    EventsListOwnTicketsKept(s, s'.tickets);
  }

  lemma RestatusKeepsCapacity(s: State, k: TicketRef, status: TicketStatus)
    requires WithinCapacity(s) && OneTicketPerAttendee(s) && k < |s.tickets|
    ensures WithinCapacity(SetTicketStatus(s, k, status)) && OneTicketPerAttendee(SetTicketStatus(s, k, status))
  {
    var s' := SetTicketStatus(s, k, status);
    forall e | 0 <= e < |s.events| ensures TicketCount(s', e) == TicketCount(s, e) {
      CountAgree(s'.tickets, ForEvent(e), s.tickets, ForEvent(e));
    }
  }

  lemma RestatusKeepsPayments(s: State, k: TicketRef, status: TicketStatus)
    requires PaymentsLinked(s) && k < |s.tickets|
    ensures PaymentsLinked(SetTicketStatus(s, k, status))
  {
    var s' := SetTicketStatus(s, k, status);
    forall x | 0 <= x < |s.txns| && s.txns[x].ticket.Some?
      ensures PaysFor(s', s.txns[x], s.txns[x].ticket.value)
    {
      assert PaysFor(s, s.txns[x], s.txns[x].ticket.value);
    }
  }

  /** Rewriting a transaction's hash and status, when no other transaction holds that hash. */
  lemma UpdateTxnKeeps(s: State, x: TxnRef, hash: Option<string>, status: TxnStatus)
    requires Inv(s) && x < |s.txns|
    requires !HashTakenByOther(s, x, hash)
    ensures Inv(s.(txns := s.txns[x := s.txns[x].(txHash := hash, status := status)]))
  {
    RehashKeepsKeys(s, x, hash, status);
    RehashKeepsPayments(s, x, hash, status);
  }

  lemma RehashKeepsKeys(s: State, x: TxnRef, hash: Option<string>, status: TxnStatus)
    requires UniqueKeys(s) && x < |s.txns|
    requires !HashTakenByOther(s, x, hash)
    ensures UniqueKeys(s.(txns := s.txns[x := s.txns[x].(txHash := hash, status := status)]))
  {
  }

  lemma RehashKeepsPayments(s: State, x: TxnRef, hash: Option<string>, status: TxnStatus)
    requires PaymentsLinked(s) && x < |s.txns|
    ensures PaymentsLinked(s.(txns := s.txns[x := s.txns[x].(txHash := hash, status := status)]))
  {
  }

  /** Overwriting a user's access token (`findByIdAndUpdate`, no validation). */
  lemma SetAccessTokenKeeps(s: State, u: UserRef, token: string)
    requires Inv(s) && u < |s.users|
    ensures Inv(s.(users := s.users[u := s.users[u].(accessToken := token)]))
  {
  }

  // ---------------------------------------------------------------------------------------
  // The database the handlers write to

  /** The four collections as the handlers see them: each write is one Mongoose call. */
  class Db {
    var events: seq<Event>
    var users: seq<User>
    var tickets: seq<Ticket>
    var txns: seq<Transaction>

    function Contents(): State
      reads this
    {
      State(events, users, tickets, txns)
    }

    constructor ()
      ensures Contents() == Empty
    {
      events, users, tickets, txns := [], [], [], [];
    }

    /** `Event.create(d)`: the new event's id, or the error thrown with nothing written. */
    method CreateEvent(d: EventDoc) returns (r: Result<EventRef, DbError>)
      modifies this
      ensures NewEvent(old(Contents()), d).Ok? ==>
        r == Ok(|old(events)|) && Contents() == old(Contents()).(events := old(events) + [NewEvent(old(Contents()), d).value])
      ensures NewEvent(old(Contents()), d).Err? ==>
        r == Err(NewEvent(old(Contents()), d).error) && Contents() == old(Contents())
    {
      var checked := NewEvent(Contents(), d);
      if checked.Err? {
        return Err(checked.error);
      }
      r := Ok(|events|);
      events := events + [checked.value];
    }

    /** `Ticket.create(d)`. */
    method CreateTicket(d: TicketDoc) returns (r: Result<TicketRef, DbError>)
      modifies this
      ensures NewTicket(old(Contents()), d).Ok? ==>
        r == Ok(|old(tickets)|) && Contents() == old(Contents()).(tickets := old(tickets) + [NewTicket(old(Contents()), d).value])
      ensures NewTicket(old(Contents()), d).Err? ==>
        r == Err(NewTicket(old(Contents()), d).error) && Contents() == old(Contents())
    {
      var checked := NewTicket(Contents(), d);
      if checked.Err? {
        return Err(checked.error);
      }
      r := Ok(|tickets|);
      tickets := tickets + [checked.value];
    }

    /** `Transaction.create(d)`. */
    method CreateTransaction(d: TransactionDoc) returns (r: Result<TxnRef, DbError>)
      modifies this
      ensures NewTxn(old(Contents()), d).Ok? ==>
        r == Ok(|old(txns)|) && Contents() == old(Contents()).(txns := old(txns) + [NewTxn(old(Contents()), d).value])
      ensures NewTxn(old(Contents()), d).Err? ==>
        r == Err(NewTxn(old(Contents()), d).error) && Contents() == old(Contents())
    {
      var checked := NewTxn(Contents(), d);
      if checked.Err? {
        return Err(checked.error);
      }
      r := Ok(|txns|);
      txns := txns + [checked.value];
    }

    /** `User.create(d)`. */
    method CreateUser(d: UserDoc) returns (r: Result<UserRef, DbError>)
      modifies this
      ensures NewUser(old(Contents()), d).Ok? ==>
        r == Ok(|old(users)|) && Contents() == old(Contents()).(users := old(users) + [NewUser(old(Contents()), d).value])
      ensures NewUser(old(Contents()), d).Err? ==>
        r == Err(NewUser(old(Contents()), d).error) && Contents() == old(Contents())
    {
      var checked := NewUser(Contents(), d);
      if checked.Err? {
        return Err(checked.error);
      }
      r := Ok(|users|);
      users := users + [checked.value];
    }

    /** `Ticket.findByIdAndUpdate(k, { status })`, or setting the status and saving the ticket:
        either way the stored ticket keeps every other field. */
    method UpdateTicketStatus(k: TicketRef, status: TicketStatus)
      modifies this
      ensures Contents() == SetTicketStatus(old(Contents()), k, status)
    {
      if k < |tickets| {
        tickets := tickets[k := tickets[k].(status := status)];
      }
    }

    /** `event.tickets.push(r); event.save()`. */
    method PushEventTicket(e: EventRef, r: TicketRef)
      requires e < |events|
      modifies this
      ensures Contents() == old(Contents()).(events := old(events)[e := old(events)[e].(tickets := old(events)[e].tickets + [r])])
    {
      events := events[e := events[e].(tickets := events[e].tickets + [r])];
    }

    /** Setting a transaction's hash and status and saving it: the unique index on `txHash`
        refuses a hash another transaction holds, and then nothing is written. */
    method SaveTransaction(x: TxnRef, hash: Option<string>, status: TxnStatus) returns (r: Result<(), DbError>)
      requires x < |txns|
      modifies this
      ensures HashTakenByOther(old(Contents()), x, hash) ==>
        r == Err(DuplicateKey("transactions", "txHash", hash.value)) && Contents() == old(Contents())
      ensures !HashTakenByOther(old(Contents()), x, hash) ==>
        r == Ok(()) && Contents() == old(Contents()).(txns := old(txns)[x := old(txns)[x].(txHash := hash, status := status)])
    {
      if HashTakenByOther(Contents(), x, hash) {
        return Err(DuplicateKey("transactions", "txHash", hash.value));
      }
      txns := txns[x := txns[x].(txHash := hash, status := status)];
      r := Ok(());
    }

    /** `Transaction.findOneAndUpdate(..., { status })`: no validation. */
    method UpdateTransactionStatus(x: TxnRef, status: TxnStatus)
      requires x < |txns|
      modifies this
      ensures Contents() == old(Contents()).(txns := old(txns)[x := old(txns)[x].(status := status)])
    {
      txns := txns[x := txns[x].(status := status)];
    }

    /** `User.findByIdAndUpdate(u, { accessToken })`: no validation. */
    method UpdateAccessToken(u: UserRef, token: string)
      requires u < |users|
      modifies this
      ensures Contents() == old(Contents()).(users := old(users)[u := old(users)[u].(accessToken := token)])
    {
      users := users[u := users[u].(accessToken := token)];
    }
  }
}
