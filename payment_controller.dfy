/** The Pi payment handlers of backend/src/controllers/paymentController.ts. A paid registration
    creates an active ticket and a pending purchase keyed by the platform's payment id; completing
    the payment replaces that key with the blockchain txid, cancelling it marks both records
    failed and cancelled. The platform and Horizon answers are parameters. */
module PaymentController {
  import opened Wrappers
  import opened Ids
  import opened Query
  import opened Schema
  import opened ErrorMiddleware
  import opened TicketModel
  import opened TransactionModel
  import opened Store
  import opened Http
  import opened EventController

  // ---------------------------------------------------------------------------------------
  // approvePayment

  /** The `metadata` of the platform's payment record. */
  datatype Metadata = Metadata(eventId: string, price: Option<int>)

  /** The records a successful approval created. */
  datatype Approval = Approval(ticket: TicketRef, transaction: TxnRef)

  /** The pending purchase `approvePayment` hands to `Transaction.create`. */
  function PurchaseDoc(u: UserRef, organizer: UserRef, k: TicketRef, amount: Option<int>, paymentId: string): TransactionDoc
  {
    TransactionDoc(Some(u), Some(organizer), Some(k), amount, Some(paymentId), Some("purchase"), Some("pending"))
  }

  /** The pending purchase of ticket `k` by `u` from `organizer`, keyed by the payment id. */
  function PendingPurchase(u: UserRef, organizer: UserRef, k: TicketRef, amount: int, paymentId: string): Transaction
  {
    Transaction(Some(u), Some(organizer), Some(k), amount, Some(paymentId), Purchase, Pending)
  }

  /** The writes of an approval whose event and user were found: the shared admission checks,
      then the ticket, then the pending purchase, then the platform's approve call (`ack`). */
  function Buy(s: State, e: EventRef, u: UserRef, price: Option<int>, paymentId: string, token: string,
                    ack: Result<(), AppError>): (r: Outcome<Approval>)
    requires e < |s.events|
    ensures r.state.events == s.events && r.state.users == s.users
    ensures r.reply.Done? || r.reply.Refused? || r.reply.ServerError?
    ensures r.reply.Done? ==>
      && Admission(s, e, u, price, token).Ok? && ack.Ok?
      && r.reply == Done(200, Approval(|s.tickets|, |s.txns|))
      && r.state.tickets == s.tickets + [Ticket(e, u, price.value, Some(token), Active)]
      && r.state.txns == s.txns + [PendingPurchase(u, s.events[e].organizer, |s.tickets|, price.value, paymentId)]
    ensures r.reply.Refused? ==>
      && r.state == s
      && (r.reply == Refused(400, CapacityReached) <==> Admission(s, e, u, price, token) == Err(NoSeat))
      && (r.reply == Refused(400, AlreadyRegistered) <==> Admission(s, e, u, price, token) == Err(HoldsTicket))
    ensures r.state == s || (
      && Admission(s, e, u, price, token).Ok?
      && var s1 := s.(tickets := s.tickets + [Admission(s, e, u, price, token).value]);
      && (r.state == s1 || (
            && price.Some? && TxnByHash(s1, paymentId).None?
            && r.state == s1.(txns := s1.txns + [PendingPurchase(u, s.events[e].organizer, |s.tickets|, price.value, paymentId)]))))
    ensures Admission(s, e, u, price, token) == Err(NoSeat) ==> r == Outcome(s, Refused(400, CapacityReached))
    ensures Admission(s, e, u, price, token) == Err(HoldsTicket) ==> r == Outcome(s, Refused(400, AlreadyRegistered))
    ensures Admission(s, e, u, price, token).Err? && Admission(s, e, u, price, token).error.Rejected? ==>
      r == Outcome(s, ServerError(StoreError(Admission(s, e, u, price, token).error.error)))
    ensures Admission(s, e, u, price, token).Ok? ==>
      var s1 := s.(tickets := s.tickets + [Admission(s, e, u, price, token).value]);
      var doc := PurchaseDoc(u, s.events[e].organizer, |s.tickets|, price, paymentId);
      && (NewTxn(s1, doc).Err? ==> r == Outcome(s1, ServerError(StoreError(NewTxn(s1, doc).error))))
      && (NewTxn(s1, doc).Ok? && ack.Err? ==>
            r == Outcome(s1.(txns := s1.txns + [NewTxn(s1, doc).value]), ServerError(OtherError(ack.error))))
      && (NewTxn(s1, doc).Ok? && ack.Ok? ==>
            r == Outcome(s1.(txns := s1.txns + [NewTxn(s1, doc).value]), Done(200, Approval(|s.tickets|, |s.txns|))))
  {
    match Admission(s, e, u, price, token)
    case Err(NoSeat) => Outcome(s, Refused(400, CapacityReached))
    case Err(HoldsTicket) => Outcome(s, Refused(400, AlreadyRegistered))
    case Err(Rejected(x)) => Outcome(s, ServerError(StoreError(x)))
    case Ok(k) =>
      var s1 := s.(tickets := s.tickets + [k]);
      match NewTxn(s1, PurchaseDoc(u, s.events[e].organizer, |s.tickets|, price, paymentId))
      case Err(x) => Outcome(s1, ServerError(StoreError(x)))
      case Ok(x) =>
        var s2 := s1.(txns := s1.txns + [x]);
        if ack.Err? then Outcome(s2, ServerError(OtherError(ack.error)))
        else Outcome(s2, Done(200, Approval(|s.tickets|, |s.txns|)))
  }

  /** `approvePayment`: `payment` is the platform's answer for the payment id, `token` the fresh
      uuid and `ack` the platform's answer to the approve call. The ticket's price and the
      purchase's amount are `event.price || metadata.price`. */
  function ApproveOutcome(s: State, user: Option<string>, paymentId: string, payment: Result<Metadata, AppError>,
                          token: string, ack: Result<(), AppError>): (r: Outcome<Approval>)
    ensures r.reply == Refused(401, UserNotFoundUnauthorized) <==> !Present(user)
    ensures r.reply.Refused? ==> r.state == s && r.reply.status in {400, 401, 404}
    ensures r.reply.Refused? && r.reply.status == 404 <==>
      Present(user) && payment.Ok? && (EventByKey(s, payment.value.eventId).None? || UserByName(s, user.value).None?)
    ensures !(r.reply.Refused? && r.reply.status == 404) && Present(user) && payment.Ok? ==>
      EventByKey(s, payment.value.eventId).Some? && UserByName(s, user.value).Some? &&
      var e := EventByKey(s, payment.value.eventId).value;
      r == Buy(s, e, UserByName(s, user.value).value, OrElse(s.events[e].price, payment.value.price), paymentId, token, ack)
    ensures r.reply.Done? ==> Present(user) && payment.Ok?
    ensures payment.Err? && Present(user) ==> r == Outcome(s, ServerError(OtherError(payment.error)))
    ensures Present(user) && payment.Ok? && EventByKey(s, payment.value.eventId).None? ==>
      r == Outcome(s, Refused(404, EventNotFound))
    ensures Present(user) && payment.Ok? && EventByKey(s, payment.value.eventId).Some? && UserByName(s, user.value).None? ==>
      r == Outcome(s, Refused(404, UserNotFound))
  {
    if !Present(user) then Outcome(s, Refused(401, UserNotFoundUnauthorized))
    else if payment.Err? then Outcome(s, ServerError(OtherError(payment.error)))
    else if EventByKey(s, payment.value.eventId).None? then Outcome(s, Refused(404, EventNotFound))
    else if UserByName(s, user.value).None? then Outcome(s, Refused(404, UserNotFound))
    else
      var e := EventByKey(s, payment.value.eventId).value;
      Buy(s, e, UserByName(s, user.value).value, OrElse(s.events[e].price, payment.value.price), paymentId, token, ack)
  }

  /** Whatever the platform answers, an approval keeps the store's invariant, including when it
      stops half way with the ticket created and no purchase. */
  lemma ApproveKeepsInv(s: State, user: Option<string>, paymentId: string, payment: Result<Metadata, AppError>,
                        token: string, ack: Result<(), AppError>)
    requires Inv(s)
    ensures Inv(ApproveOutcome(s, user, paymentId, payment, token, ack).state)
  {
    if Present(user) && payment.Ok? && EventByKey(s, payment.value.eventId).Some? && UserByName(s, user.value).Some? {
      var e := EventByKey(s, payment.value.eventId).value;
      var u := UserByName(s, user.value).value;
      BuyKeepsInv(s, e, u, OrElse(s.events[e].price, payment.value.price), paymentId, token, ack);
    }
  }

  lemma BuyKeepsInv(s: State, e: EventRef, u: UserRef, price: Option<int>, paymentId: string, token: string,
                    ack: Result<(), AppError>)
    requires Inv(s) && e < |s.events| && u < |s.users|
    ensures Inv(Buy(s, e, u, price, paymentId, token, ack).state)
  {
    var r := Buy(s, e, u, price, paymentId, token, ack);
    if r.state != s {
      var k := Admission(s, e, u, price, token).value;
      var s1 := s.(tickets := s.tickets + [k]);
      AdmissionKeepsInv(s, e, u, price, token);
      if r.state != s1 {
        NoTxnForNewTicket(s);
        PendingPurchaseKeepsInv(s1, |s.tickets|, paymentId);
      }
    }
  }

  /** No transaction links the next ticket to be created. */
  lemma NoTxnForNewTicket(s: State)
    requires TxnRefsExist(s)
    ensures forall y :: 0 <= y < |s.txns| ==> s.txns[y].ticket != Some(|s.tickets|)
  {
  }

  /** Recording the pending purchase of a ticket no transaction pays for yet, under a new hash. */
  lemma PendingPurchaseKeepsInv(s: State, k: TicketRef, paymentId: string)
    requires Inv(s) && k < |s.tickets|
    requires forall y :: 0 <= y < |s.txns| ==> s.txns[y].ticket != Some(k)
    requires TxnByHash(s, paymentId).None?
    ensures var t := s.tickets[k];
      Inv(s.(txns := s.txns + [PendingPurchase(t.owner, s.events[t.event].organizer, k, t.price, paymentId)]))
  {
    var t := s.tickets[k];
    assert TicketRefsExist(s) && OrganizersExist(s);
    var x := PendingPurchase(t.owner, s.events[t.event].organizer, k, t.price, paymentId);
    assert PaysFor(s, x, k);
    InsertTxnKeeps(s, x);
  }

  /** A successful approval leaves the new ticket active while its purchase is still pending,
      and the purchase pays exactly for that ticket. */
  lemma ApprovedTicketActiveWhilePending(s: State, user: Option<string>, paymentId: string,
                                         payment: Result<Metadata, AppError>, token: string, ack: Result<(), AppError>)
    requires Inv(s)
    requires ApproveOutcome(s, user, paymentId, payment, token, ack).reply.Done?
    ensures var r := ApproveOutcome(s, user, paymentId, payment, token, ack);
      && var a := r.reply.value;
      && a.ticket < |r.state.tickets| && a.transaction < |r.state.txns|
      && r.state.tickets[a.ticket].status == Active
      && r.state.txns[a.transaction].status == Pending
      && r.state.txns[a.transaction].ticket == Some(a.ticket)
      && r.state.txns[a.transaction].txHash == Some(paymentId)
      && PaysFor(r.state, r.state.txns[a.transaction], a.ticket)
  {
    ApproveKeepsInv(s, user, paymentId, payment, token, ack);
    var r := ApproveOutcome(s, user, paymentId, payment, token, ack);
    assert PaymentsLinked(r.state);
    assert r.state.txns[r.reply.value.transaction].ticket.Some?;
  }

  /** The handler. */
  method Approve(db: Db, user: Option<string>, paymentId: string, payment: Result<Metadata, AppError>,
                 token: string, ack: Result<(), AppError>) returns (reply: Reply<Approval>)
    modifies db
    ensures reply == ApproveOutcome(old(db.Contents()), user, paymentId, payment, token, ack).reply
    ensures db.Contents() == ApproveOutcome(old(db.Contents()), user, paymentId, payment, token, ack).state
  {
    if !Present(user) {
      return Refused(401, UserNotFoundUnauthorized);
    }
    if payment.Err? {
      return ServerError(OtherError(payment.error));
    }
    var event := EventByKey(db.Contents(), payment.value.eventId);
    if event.None? {
      return Refused(404, EventNotFound);
    }
    var payer := UserByName(db.Contents(), user.value);
    if payer.None? {
      return Refused(404, UserNotFound);
    }
    var e, u := event.value, payer.value;
    var price := OrElse(db.events[e].price, payment.value.price);
    if TicketCount(db.Contents(), e) >= db.events[e].capacity {
      return Refused(400, CapacityReached);
    }
    if TicketFor(db.Contents(), e, u).Some? {
      return Refused(400, AlreadyRegistered);
    }
    var organizer := db.events[e].organizer;
    var ticket := db.CreateTicket(AdmissionDoc(e, u, price, token));
    if ticket.Err? {
      return ServerError(StoreError(ticket.error));
    }
    var txn := db.CreateTransaction(PurchaseDoc(u, organizer, ticket.value, price, paymentId));
    if txn.Err? {
      return ServerError(StoreError(txn.error));
    }
    if ack.Err? {
      return ServerError(OtherError(ack.error));
    }
    reply := Done(200, Approval(ticket.value, txn.value));
  }

  // ---------------------------------------------------------------------------------------
  // completePayment, and the effect handleIncompletePayment shares with it

  /** Transaction `x` takes `txid` as its hash and is completed, and its linked ticket, if any,
      is made active. */
  function Settle(s: State, x: TxnRef, txid: Option<string>): State
    requires x < |s.txns|
  {
    var s1 := s.(txns := s.txns[x := s.txns[x].(txHash := txid, status := Completed)]);
    if s.txns[x].ticket.Some? then SetTicketStatus(s1, s.txns[x].ticket.value, Active) else s1
  }

  /** `completePayment`: the purchase keyed by `paymentId` is completed under `txid`; `ack` is the
      platform's answer to the complete call, made after the writes. */
  function CompleteOutcome(s: State, paymentId: string, txid: Option<string>, ack: Result<(), AppError>): (r: Outcome<TxnRef>)
    ensures r.reply == Refused(404, TransactionNotFound) <==> TxnByHash(s, paymentId).None?
    ensures r.reply.Refused? ==> r.state == s
    ensures r.reply.Done? ==> ack.Ok? && r.reply.status == 200
    ensures r.reply.Done? || r.reply.Refused? || r.reply.ServerError?
    ensures TxnByHash(s, paymentId).Some? ==>
      var x := TxnByHash(s, paymentId).value;
      && x < |s.txns| && s.txns[x].txHash == Some(paymentId)
      && (HashTakenByOther(s, x, txid) ==>
            r == Outcome(s, ServerError(StoreError(DuplicateKey("transactions", "txHash", txid.value)))))
      && (!HashTakenByOther(s, x, txid) ==> r.state == Settle(s, x, txid))
      && (!HashTakenByOther(s, x, txid) && ack.Ok? ==> r.reply == Done(200, x))
      && (!HashTakenByOther(s, x, txid) && ack.Err? ==> r.reply == ServerError(OtherError(ack.error)))
      && (r.reply.Done? ==> r.reply.value == x)
  {
    match TxnByHash(s, paymentId)
    case None => Outcome(s, Refused(404, TransactionNotFound))
    case Some(x) =>
      assert WithTxHash(paymentId)(s.txns[x]);
      if HashTakenByOther(s, x, txid) then
        Outcome(s, ServerError(StoreError(DuplicateKey("transactions", "txHash", txid.value))))
      else
        var s' := Settle(s, x, txid);
        if ack.Err? then Outcome(s', ServerError(OtherError(ack.error))) else Outcome(s', Done(200, x))
  }

  /** Settling a transaction whose new hash is free keeps the invariant. */
  lemma SettleKeepsInv(s: State, x: TxnRef, txid: Option<string>)
    requires Inv(s) && x < |s.txns| && !HashTakenByOther(s, x, txid)
    ensures Inv(Settle(s, x, txid))
  {
    UpdateTxnKeeps(s, x, txid, Completed);
    var s1 := s.(txns := s.txns[x := s.txns[x].(txHash := txid, status := Completed)]);
    if s.txns[x].ticket.Some? {
      SetTicketStatusKeeps(s1, s.txns[x].ticket.value, Active);
    }
  }

  lemma CompleteKeepsInv(s: State, paymentId: string, txid: Option<string>, ack: Result<(), AppError>)
    requires Inv(s)
    ensures Inv(CompleteOutcome(s, paymentId, txid, ack).state)
  {
    if TxnByHash(s, paymentId).Some? && !HashTakenByOther(s, TxnByHash(s, paymentId).value, txid) {
      SettleKeepsInv(s, TxnByHash(s, paymentId).value, txid);
    }
  }

  /** Completion retires the payment id: once it has written a different txid, no purchase is
      found under the payment id any more, so a repeated call is answered 404. */
  lemma CompleteIsNotRepeatable(s: State, paymentId: string, txid: Option<string>, ack: Result<(), AppError>,
                                txid': Option<string>, ack': Result<(), AppError>)
    requires Inv(s)
    requires CompleteOutcome(s, paymentId, txid, ack).state != s
    requires txid != Some(paymentId)
    ensures TxnByHash(CompleteOutcome(s, paymentId, txid, ack).state, paymentId).None?
    ensures CompleteOutcome(CompleteOutcome(s, paymentId, txid, ack).state, paymentId, txid', ack').reply
            == Refused(404, TransactionNotFound)
  {
    var x := TxnByHash(s, paymentId).value;
    var s' := Settle(s, x, txid);
    assert UniqueKeys(s);
    forall j | 0 <= j < |s'.txns| ensures !WithTxHash(paymentId)(s'.txns[j]) {
      if j != x {
        assert s'.txns[j] == s.txns[j];
        if j < x {
          assert s.txns[j].txHash != s.txns[x].txHash;
        } else {
          assert s.txns[x].txHash != s.txns[j].txHash;
        }
      }
    }
  }

  /** The handler. */
  method Complete(db: Db, paymentId: string, txid: Option<string>, ack: Result<(), AppError>) returns (reply: Reply<TxnRef>)
    modifies db
    ensures reply == CompleteOutcome(old(db.Contents()), paymentId, txid, ack).reply
    ensures db.Contents() == CompleteOutcome(old(db.Contents()), paymentId, txid, ack).state
  {
    var found := TxnByHash(db.Contents(), paymentId);
    if found.None? {
      return Refused(404, TransactionNotFound);
    }
    var x := found.value;
    var saved := db.SaveTransaction(x, txid, Completed);
    if saved.Err? {
      return ServerError(StoreError(saved.error));
    }
    var linked := db.txns[x].ticket;
    if linked.Some? {
      db.UpdateTicketStatus(linked.value, Active);
    }
    if ack.Err? {
      return ServerError(OtherError(ack.error));
    }
    reply := Done(200, x);
  }

  // ---------------------------------------------------------------------------------------
  // cancelPayment

  /** Transaction `x` fails and its linked ticket, if any, is marked cancelled. */
  function Void(s: State, x: TxnRef): State
    requires x < |s.txns|
  {
    var s1 := s.(txns := s.txns[x := s.txns[x].(status := Failed)]);
    if s.txns[x].ticket.Some? then SetTicketStatus(s1, s.txns[x].ticket.value, Cancelled) else s1
  }

  /** `cancelPayment`: the purchase keyed by `paymentId` fails and keeps its hash. */
  function CancelOutcome(s: State, paymentId: string): (r: Outcome<TxnRef>)
    ensures r.reply == Refused(404, TransactionNotFound) <==> TxnByHash(s, paymentId).None?
    ensures r.reply.Refused? ==> r.state == s
    ensures r.reply.Done? ==>
      && r.reply.status == 200
      && var x := r.reply.value;
      && x < |s.txns| && s.txns[x].txHash == Some(paymentId) && TxnByHash(s, paymentId) == Some(x)
      && r.state == Void(s, x)
      && r.state.txns[x] == s.txns[x].(status := Failed)
      && (s.txns[x].ticket.Some? && s.txns[x].ticket.value < |s.tickets| ==>
            r.state.tickets[s.txns[x].ticket.value].status == Cancelled)
    ensures r.reply.Done? || r.reply.Refused?
    ensures TxnByHash(s, paymentId).Some? ==>
      r == Outcome(Void(s, TxnByHash(s, paymentId).value), Done(200, TxnByHash(s, paymentId).value))
  {
    match TxnByHash(s, paymentId)
    case None => Outcome(s, Refused(404, TransactionNotFound))
    case Some(x) =>
      assert WithTxHash(paymentId)(s.txns[x]);
      Outcome(Void(s, x), Done(200, x))
  }

  lemma CancelKeepsInv(s: State, paymentId: string)
    requires Inv(s)
    ensures Inv(CancelOutcome(s, paymentId).state)
  {
    if TxnByHash(s, paymentId).Some? {
      var x := TxnByHash(s, paymentId).value;
      assert !HashTakenByOther(s, x, s.txns[x].txHash) by {
        assert UniqueKeys(s);
      }
      UpdateTxnKeeps(s, x, s.txns[x].txHash, Failed);
      var s1 := s.(txns := s.txns[x := s.txns[x].(status := Failed)]);
      if s.txns[x].ticket.Some? {
        SetTicketStatusKeeps(s1, s.txns[x].ticket.value, Cancelled);
      }
    }
  }

  /** A cancelled ticket still holds its seat and its owner's registration: cancelling frees no
      seat and changes no answer of the capacity and duplicate checks. */
  lemma CancelFreesNoSeat(s: State, paymentId: string, e: EventRef, u: UserRef)
    ensures TicketCount(CancelOutcome(s, paymentId).state, e) == TicketCount(s, e)
    ensures TicketFor(CancelOutcome(s, paymentId).state, e, u) == TicketFor(s, e, u)
  {
    var s' := CancelOutcome(s, paymentId).state;
    assert |s'.tickets| == |s.tickets|;
    assert forall j :: 0 <= j < |s.tickets| ==>
      s'.tickets[j].event == s.tickets[j].event && s'.tickets[j].owner == s.tickets[j].owner;
    CountAgree(s'.tickets, ForEvent(e), s.tickets, ForEvent(e));
    FindFirstAgree(s'.tickets, ForAttendee(e, u), s.tickets, ForAttendee(e, u));
  }

  /** The handler. */
  method Cancel(db: Db, paymentId: string) returns (reply: Reply<TxnRef>)
    modifies db
    ensures reply == CancelOutcome(old(db.Contents()), paymentId).reply
    ensures db.Contents() == CancelOutcome(old(db.Contents()), paymentId).state
  {
    var found := TxnByHash(db.Contents(), paymentId);
    if found.None? {
      return Refused(404, TransactionNotFound);
    }
    var x := found.value;
    db.UpdateTransactionStatus(x, Failed);
    var linked := db.txns[x].ticket;
    if linked.Some? {
      db.UpdateTicketStatus(linked.value, Cancelled);
    }
    reply := Done(200, x);
  }

  // ---------------------------------------------------------------------------------------
  // handleIncompletePayment

  /** The `payment` of the request body: its identifier and, once the blockchain has one, its txid. */
  datatype IncompletePayment = IncompletePayment(identifier: string, txid: Option<string>)

  /** What Horizon reports for the payment's blockchain transaction. */
  datatype HorizonTx = HorizonTx(memo: Option<string>, success: bool)

  /** Whether Horizon confirms the payment: its memo is the payment id and it succeeded. */
  predicate Confirmed(p: IncompletePayment, horizon: Result<HorizonTx, AppError>)
  {
    horizon.Ok? && horizon.value.memo == Some(p.identifier) && horizon.value.success
  }

  /** `handleIncompletePayment`: `payment` is `None` when the body carries none, `horizon` is the
      Horizon lookup and `ack` the platform's answer to the complete call. Every thrown error is
      caught and logged, and a completed payment is answered with nothing at all. */
  function IncompleteOutcome(s: State, payment: Option<IncompletePayment>, horizon: Result<HorizonTx, AppError>,
                             ack: Result<(), AppError>): (r: Outcome<()>)
    ensures r.reply.NoReply? || r.reply.Refused?
    ensures r.reply.Refused? ==> r.state == s
    ensures r.reply == Refused(404, TransactionNotFound) <==> payment.Some? && TxnByHash(s, payment.value.identifier).None?
    ensures r.reply == Refused(400, MemoMismatch) <==>
      payment.Some? && TxnByHash(s, payment.value.identifier).Some? && horizon.Ok?
      && horizon.value.memo != Some(payment.value.identifier)
    ensures r.reply == Refused(400, PaymentNotSuccessful) <==>
      payment.Some? && TxnByHash(s, payment.value.identifier).Some? && horizon.Ok?
      && horizon.value.memo == Some(payment.value.identifier) && !horizon.value.success
    ensures r.reply.Refused? ==> r.reply.status in {400, 404}
    ensures payment.None? ==> r == Outcome(s, NoReply)
    ensures payment.Some? && TxnByHash(s, payment.value.identifier).Some? && horizon.Err? ==> r == Outcome(s, NoReply)
    ensures payment.Some? && TxnByHash(s, payment.value.identifier).Some? && Confirmed(payment.value, horizon) ==>
      var x := TxnByHash(s, payment.value.identifier).value;
      && x < |s.txns|
      && (HashTakenByOther(s, x, payment.value.txid) ==> r == Outcome(s, NoReply))
      && (!HashTakenByOther(s, x, payment.value.txid) ==> r == Outcome(Settle(s, x, payment.value.txid), NoReply))
    ensures r.state != s ==>
      payment.Some? && TxnByHash(s, payment.value.identifier).Some? && Confirmed(payment.value, horizon)
  {
    if payment.None? then Outcome(s, NoReply)
    else
      var p := payment.value;
      match TxnByHash(s, p.identifier)
      case None => Outcome(s, Refused(404, TransactionNotFound))
      case Some(x) =>
        if horizon.Err? then Outcome(s, NoReply)
        else if horizon.value.memo != Some(p.identifier) then Outcome(s, Refused(400, MemoMismatch))
        else if !horizon.value.success then Outcome(s, Refused(400, PaymentNotSuccessful))
        else if HashTakenByOther(s, x, p.txid) then Outcome(s, NoReply)
        else Outcome(Settle(s, x, p.txid), NoReply)
  }

  /** Once Horizon confirms the payment, the incomplete-payment handler writes exactly what
      `completePayment` writes for the same payment id and txid. */
  lemma IncompleteMatchesComplete(s: State, p: IncompletePayment, horizon: Result<HorizonTx, AppError>,
                                  ack: Result<(), AppError>)
    requires TxnByHash(s, p.identifier).Some? && Confirmed(p, horizon)
    ensures IncompleteOutcome(s, Some(p), horizon, ack).state == CompleteOutcome(s, p.identifier, p.txid, ack).state
    ensures IncompleteOutcome(s, Some(p), horizon, ack).reply == NoReply
  {
  }

  lemma IncompleteKeepsInv(s: State, payment: Option<IncompletePayment>, horizon: Result<HorizonTx, AppError>,
                           ack: Result<(), AppError>)
    requires Inv(s)
    ensures Inv(IncompleteOutcome(s, payment, horizon, ack).state)
  {
    if payment.Some? && TxnByHash(s, payment.value.identifier).Some? && Confirmed(payment.value, horizon) {
      IncompleteMatchesComplete(s, payment.value, horizon, ack);
      CompleteKeepsInv(s, payment.value.identifier, payment.value.txid, ack);
    }
  }

  /** The handler. */
  method HandleIncomplete(db: Db, payment: Option<IncompletePayment>, horizon: Result<HorizonTx, AppError>,
                          ack: Result<(), AppError>) returns (reply: Reply<()>)
    modifies db
    ensures reply == IncompleteOutcome(old(db.Contents()), payment, horizon, ack).reply
    ensures db.Contents() == IncompleteOutcome(old(db.Contents()), payment, horizon, ack).state
  {
    if payment.None? {
      return NoReply;
    }
    var p := payment.value;
    var found := TxnByHash(db.Contents(), p.identifier);
    if found.None? {
      return Refused(404, TransactionNotFound);
    }
    if horizon.Err? {
      return NoReply;
    }
    if horizon.value.memo != Some(p.identifier) {
      return Refused(400, MemoMismatch);
    }
    if !horizon.value.success {
      return Refused(400, PaymentNotSuccessful);
    }
    var x := found.value;
    var saved := db.SaveTransaction(x, p.txid, Completed);
    if saved.Err? {
      return NoReply;
    }
    var linked := db.txns[x].ticket;
    if linked.Some? {
      db.UpdateTicketStatus(linked.value, Active);
    }
    reply := NoReply;
  }
}
