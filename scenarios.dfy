/** The ticket lifecycle across handlers: a free registration admitted at the door, and a paid
    registration that is completed or cancelled. */
module Scenarios {
  import opened Wrappers
  import opened Query
  import opened ErrorMiddleware
  import opened TicketModel
  import opened TransactionModel
  import opened Store
  import opened Http
  import opened EventController
  import opened PaymentController

  /** A ticket from a free registration is admitted at the door once: the first scan of its
      token marks it used, the second is answered "Ticket already used". */
  lemma RegisteredTicketAdmitsOnce(s: State, user: Option<string>, eventId: string, token: string)
    requires RegisterOutcome(s, user, eventId, token).reply.Done? && token != ""
    ensures var s1 := RegisterOutcome(s, user, eventId, token).state;
            var v := VerifyTicketOutcome(s1, Some(token));
            && v.reply == Done(200, Verification(true, TicketVerified, Some(|s.tickets|)))
            && VerifyTicketOutcome(v.state, Some(token)).reply == Done(200, Verification(false, TicketAlreadyUsed, None))
  {
    var s1 := RegisterOutcome(s, user, eventId, token).state;
    var e := EventByKey(s, eventId).value;
    var u := UserByName(s, user.value).value;
    var k := Admission(s, e, u, s.events[e].price, token).value;
    FindFirstAppend(s.tickets, k, WithToken(token));
    assert s1.tickets == s.tickets + [k];
    assert TicketByToken(s1, token) == Some(|s.tickets|);
    VerifyIsSingleUse(s1, Some(token));
  }

  /** The paid path: once approved, completing the payment under a txid no other transaction
      holds answers 200 for the new purchase, completes it under the txid and leaves the ticket
      active. */
  lemma PaidRegistrationCompletes(s: State, user: Option<string>, paymentId: string, payment: Result<Metadata, AppError>,
                                  token: string, ack: Result<(), AppError>, txid: Option<string>)
    requires ApproveOutcome(s, user, paymentId, payment, token, ack).reply.Done?
    requires txid.Some? ==> TxnByHash(s, txid.value).None?
    ensures var a := ApproveOutcome(s, user, paymentId, payment, token, ack);
            var k, x := a.reply.value.ticket, a.reply.value.transaction;
            var c := CompleteOutcome(a.state, paymentId, txid, Ok(()));
            && c.reply == Done(200, x)
            && x < |c.state.txns| && c.state.txns[x].status == Completed && c.state.txns[x].txHash == txid
            && k < |c.state.tickets| && c.state.tickets[k].status == Active
  {
    var a := ApproveOutcome(s, user, paymentId, payment, token, ack);
    var e := EventByKey(s, payment.value.eventId).value;
    var u := UserByName(s, user.value).value;
    var price := OrElse(s.events[e].price, payment.value.price);
    var k := Admission(s, e, u, price, token).value;
    var s1 := s.(tickets := s.tickets + [k]);
    var p := PendingPurchase(u, s.events[e].organizer, |s.tickets|, price.value, paymentId);
    assert a.state == s1.(txns := s.txns + [p]);
    FindFirstAppend(s.txns, p, WithTxHash(paymentId));
    assert TxnByHash(a.state, paymentId) == Some(|s.txns|);
    if txid.Some? {
      forall j | 0 <= j < |s.txns| ensures a.state.txns[j].txHash != txid {
        assert !WithTxHash(txid.value)(s.txns[j]);
      }
    }
    assert !HashTakenByOther(a.state, |s.txns|, txid);
  }

  /** A cancelled paid registration still blocks its owner: trying again, by payment or by free
      registration, for the same event is refused with 400 (the event is full, or the user
      already holds a ticket). */
  lemma CancelledPurchaseBlocksRetry(s: State, user: Option<string>, paymentId: string, payment: Result<Metadata, AppError>,
                                     token: string, ack: Result<(), AppError>,
                                     paymentId': string, token': string, ack': Result<(), AppError>)
    requires ApproveOutcome(s, user, paymentId, payment, token, ack).reply.Done?
    ensures var a := ApproveOutcome(s, user, paymentId, payment, token, ack);
            var c := CancelOutcome(a.state, paymentId);
            && c.reply.Done?
            && var retry := ApproveOutcome(c.state, user, paymentId', payment, token', ack').reply;
            && retry.Refused? && retry.status == 400
            && var again := RegisterOutcome(c.state, user, payment.value.eventId, token').reply;
            && again.Refused? && again.status == 400
  {
    var a := ApproveOutcome(s, user, paymentId, payment, token, ack);
    var e := EventByKey(s, payment.value.eventId).value;
    var u := UserByName(s, user.value).value;
    var price := OrElse(s.events[e].price, payment.value.price);
    var k := Admission(s, e, u, price, token).value;
    var p := PendingPurchase(u, s.events[e].organizer, |s.tickets|, price.value, paymentId);
    assert a.state == s.(tickets := s.tickets + [k], txns := s.txns + [p]);
    FindFirstAppend(s.txns, p, WithTxHash(paymentId));
    assert TxnByHash(a.state, paymentId).Some?;
    FindFirstAppend(s.tickets, k, ForAttendee(e, u));
    assert TicketFor(a.state, e, u).Some?;
    var c := CancelOutcome(a.state, paymentId);
    CancelFreesNoSeat(a.state, paymentId, e, u);
    assert c.state.events == s.events && c.state.users == s.users;
    assert EventByKey(c.state, payment.value.eventId) == Some(e);
    assert UserByName(c.state, user.value) == Some(u);
    HolderIsRefused(c.state, user.value, payment.value, paymentId', token', ack');
  }

  /** A user who holds a ticket for an event, of any status, is refused both ways in. */
  lemma HolderIsRefused(s: State, user: string, meta: Metadata, paymentId: string, token: string, ack: Result<(), AppError>)
    requires user != "" && EventByKey(s, meta.eventId).Some? && UserByName(s, user).Some?
    requires TicketFor(s, EventByKey(s, meta.eventId).value, UserByName(s, user).value).Some?
    ensures var r := ApproveOutcome(s, Some(user), paymentId, Ok(meta), token, ack).reply;
            r.Refused? && r.status == 400
    ensures var r := RegisterOutcome(s, Some(user), meta.eventId, token).reply;
            r.Refused? && r.status == 400
  {
  }
}
