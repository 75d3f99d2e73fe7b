/** Document ids (`_id`). Collections are never pruned, so a document's id is its position in
    its collection; a larger id means a later insert, which the model takes as a later `createdAt`. */
module Ids {
  type EventRef = nat
  type UserRef = nat
  type TicketRef = nat
  type TxnRef = nat
}
