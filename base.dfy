/** Small shared vocabulary: an optional value. */
module Base {

  /** A value that may be absent: a missing header, a missing environment variable,
      a parse that failed, a call that raised. */
  datatype Option<+T> = None | Some(value: T)

  /** The payment provider's event name for a completed payment, the only event the webhook
      handlers act on. */
  const PaymentSucceeded := "payment.succeeded"
}
