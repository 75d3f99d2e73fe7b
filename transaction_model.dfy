/** The Transaction schema of backend/src/models/transaction.ts. */
module TransactionModel {
  import opened Wrappers
  import opened Ids
  import opened Schema

  datatype TxnType = Purchase | Transfer
  datatype TxnStatus = Pending | Completed | Failed

  /** A stored payment record. `kind` is the schema's `type` field. */
  datatype Transaction = Transaction(
    from: Option<UserRef>,
    to: Option<UserRef>,
    ticket: Option<TicketRef>,
    amount: int,
    txHash: Option<string>,
    kind: TxnType,
    status: TxnStatus)

  /** The document a handler hands to `Transaction.create`. */
  datatype TransactionDoc = TransactionDoc(
    from: Option<UserRef>,
    to: Option<UserRef>,
    ticket: Option<TicketRef>,
    amount: Option<int>,
    txHash: Option<string>,
    kind: Option<string>,
    status: Option<string>)

  function Failures(d: TransactionDoc): seq<PathError>
  {
    (if d.amount.None? then [Required("amount")] else [])
    + EnumString("type", d.kind, ["purchase", "transfer"], true)
    + EnumString("status", d.status, ["pending", "completed", "failed"], false)
  }

  /** Schema validation of a new transaction: the amount and the type are required, and the
      status is "pending" by default. */
  function Validate(d: TransactionDoc): (r: Result<Transaction, DbError>)
    ensures r.Ok? <==> d.amount.Some? && d.kind.Some? && d.kind.value in ["purchase", "transfer"]
                       && (d.status.None? || d.status.value in ["pending", "completed", "failed"])
    ensures r.Ok? ==> r.value.from == d.from && r.value.to == d.to && r.value.ticket == d.ticket
                      && r.value.amount == d.amount.value && r.value.txHash == d.txHash
    ensures r.Ok? ==> (r.value.kind == Purchase <==> d.kind == Some("purchase"))
    ensures r.Ok? ==> (r.value.status == Pending <==> d.status.None? || d.status == Some("pending"))
    ensures r.Err? ==> r.error == ValidationFailed("Transaction", Failures(d)) && Failures(d) != []
  {
    if Failures(d) != [] then Err(ValidationFailed("Transaction", Failures(d)))
    else
      Ok(Transaction(d.from, d.to, d.ticket, d.amount.value, d.txHash,
                     if d.kind == Some("purchase") then Purchase else Transfer,
                     if d.status == Some("completed") then Completed
                     else if d.status == Some("failed") then Failed
                     else Pending))
  }
}
