/** What every view of a payment shares. */
module Payments {
  datatype PaymentType = PURCHASE | REFUND

  datatype PaymentStatus = INITIATED | WAITING | COMPLETED | FAILED
}
