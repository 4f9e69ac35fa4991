/**
 * The app-side payment records exchanged with the payment service: immutable values whose
 * optional fields default to `null` (here `None`).
 */
module PaymentModels {
  import opened KotlinTypes

  /** A payment to take: an amount in minor currency units and the caller's correlation id. Both are required. */
  datatype PaymentRequest = PaymentRequest(amount: Int64, externalId: string)

  /** The outcome of a payment as the app sees it. Only `success` is required. */
  datatype PaymentResponse = PaymentResponse(
    success: bool,
    result: Option<string> := None,
    reason: Option<string> := None,
    message: Option<string> := None,
    payment: Option<PaymentInfo> := None)

  /** The details of a taken payment. Every field is optional. */
  datatype PaymentInfo = PaymentInfo(
    id: Option<string> := None,
    orderId: Option<string> := None,
    externalPaymentId: Option<string> := None,
    amount: Option<Int64> := None,
    tipAmount: Option<Int64> := None,
    taxAmount: Option<Int64> := None,
    result: Option<string> := None)

  /** Whether the payment terminal is connected, with a message. Both fields are required. */
  datatype DeviceStatus = DeviceStatus(connected: bool, message: string)

  /** A response built from `success` alone carries no result, reason, message or payment. */
  lemma PaymentResponseDefaults(success: bool)
    ensures PaymentResponse(success) == PaymentResponse(success, None, None, None, None)
  {
  }

  /** A payment info built with no arguments has every field `null`. */
  lemma PaymentInfoDefaults()
    ensures PaymentInfo() == PaymentInfo(None, None, None, None, None, None, None)
  {
  }
}
