/**
 * The stateless conversions from the vendor's sale response to the app's payment records, and
 * from those records to the maps sent over the platform channel.
 */
module PaymentMapper {
  import opened KotlinTypes
  import opened ChannelValues
  import opened PaymentModels
  import CloverVendor

  /** `e?.name`: the name of a nullable enum constant. */
  function EnumName(e: Option<CloverVendor.EnumConstant>): (r: Option<string>)
    ensures r.None? <==> e.None?
    ensures e.Some? ==> r == Some(e.value.name)
  {
    match e
    case None => None
    case Some(c) => Some(c.name)
  }

  /**
   * `toPaymentInfo`: the payment's identifiers and amounts are copied unchanged and its result
   * becomes the name of the result constant.
   */
  function ToPaymentInfo(payment: CloverVendor.Payment): (info: PaymentInfo)
    ensures info.id == payment.id && info.orderId == payment.orderId
    ensures info.externalPaymentId == payment.externalPaymentId
    ensures info.amount == payment.amount && info.tipAmount == payment.tipAmount && info.taxAmount == payment.taxAmount
    ensures info.result == EnumName(payment.result)
  {
    PaymentInfo(
      id := payment.id,
      orderId := payment.orderId,
      externalPaymentId := payment.externalPaymentId,
      amount := payment.amount,
      tipAmount := payment.tipAmount,
      taxAmount := payment.taxAmount,
      result := EnumName(payment.result))
  }

  /**
   * `toPaymentResponse`: a missing `success` reads as a failure, the result becomes its
   * constant's name, reason and message are copied, and a payment is present exactly when the
   * vendor reported one.
   */
  function ToPaymentResponse(response: CloverVendor.SaleResponse): (r: PaymentResponse)
    ensures r.success <==> response.success == Some(true)
    ensures r.result == EnumName(response.result)
    ensures r.reason == response.reason && r.message == response.message
    ensures r.payment.Some? <==> response.payment.Some?
    ensures response.payment.Some? ==> r.payment.value == ToPaymentInfo(response.payment.value)
  {
    PaymentResponse(
      success := response.success.GetOr(false),
      result := EnumName(response.result),
      reason := response.reason,
      message := response.message,
      payment := match response.payment
        case None => None
        case Some(p) => Some(ToPaymentInfo(p)))
  }

  /** `toMap(PaymentInfo)`: exactly the seven fields, each under its own name, `null` where absent. */
  function InfoToMap(info: PaymentInfo): (m: Payload)
    ensures m.Keys == {"id", "orderId", "externalPaymentId", "amount", "tipAmount", "taxAmount", "result"}
    ensures m["id"] == OfString(info.id) && m["orderId"] == OfString(info.orderId)
    ensures m["externalPaymentId"] == OfString(info.externalPaymentId)
    ensures m["amount"] == OfLong(info.amount) && m["tipAmount"] == OfLong(info.tipAmount)
    ensures m["taxAmount"] == OfLong(info.taxAmount) && m["result"] == OfString(info.result)
  {
    map[
      "id" := OfString(info.id),
      "orderId" := OfString(info.orderId),
      "externalPaymentId" := OfString(info.externalPaymentId),
      "amount" := OfLong(info.amount),
      "tipAmount" := OfLong(info.tipAmount),
      "taxAmount" := OfLong(info.taxAmount),
      "result" := OfString(info.result)]
  }

  /**
   * `toMap(PaymentResponse)`: exactly the five fields, each under its own name; the payment is a
   * nested map, `null` exactly when there is no payment.
   */
  function ResponseToMap(response: PaymentResponse): (m: Payload)
    ensures m.Keys == {"success", "result", "reason", "message", "payment"}
    ensures m["success"] == Bool(response.success)
    ensures m["result"] == OfString(response.result)
    ensures m["reason"] == OfString(response.reason) && m["message"] == OfString(response.message)
    ensures m["payment"] == Null <==> response.payment.None?
    ensures response.payment.Some? ==> m["payment"] == Map(InfoToMap(response.payment.value))
  {
    map[
      "success" := Bool(response.success),
      "result" := OfString(response.result),
      "reason" := OfString(response.reason),
      "message" := OfString(response.message),
      "payment" := match response.payment
        case None => Null
        case Some(info) => Map(InfoToMap(info))]
  }

  /** Reads a nullable string back from a payload value (`None` when the value is neither). */
  function StringOf(v: Value): Option<Option<string>> {
    match v
    case Null => Some(None)
    case Str(s) => Some(Some(s))
    case _ => None
  }

  /** Reads a nullable `Long` back from a payload value (`None` when the value is neither). */
  function LongOf(v: Value): Option<Option<Int64>> {
    match v
    case Null => Some(None)
    case Long(l) => Some(Some(l))
    case _ => None
  }

  /** The receiving side of `InfoToMap`: rebuilds the payment info from its map. */
  function MapToInfo(m: Payload): Option<PaymentInfo> {
    if !({"id", "orderId", "externalPaymentId", "amount", "tipAmount", "taxAmount", "result"} <= m.Keys) then None
    else
      match (StringOf(m["id"]), StringOf(m["orderId"]), StringOf(m["externalPaymentId"]),
             LongOf(m["amount"]), LongOf(m["tipAmount"]), LongOf(m["taxAmount"]), StringOf(m["result"]))
      case (Some(id), Some(orderId), Some(ext), Some(amount), Some(tip), Some(tax), Some(result)) =>
        Some(PaymentInfo(id, orderId, ext, amount, tip, tax, result))
      case _ => None
  }

  /** The receiving side of `ResponseToMap`: rebuilds the payment response from its map. */
  function MapToResponse(m: Payload): Option<PaymentResponse> {
    if !({"success", "result", "reason", "message", "payment"} <= m.Keys) || !m["success"].Bool? then None
    else
      var payment :=
        match m["payment"]
        case Null => Some(None)
        case Map(entries) => (match MapToInfo(entries) case Some(info) => Some(Some(info)) case None => None)
        case _ => None;
      match (StringOf(m["result"]), StringOf(m["reason"]), StringOf(m["message"]), payment)
      case (Some(result), Some(reason), Some(message), Some(p)) =>
        Some(PaymentResponse(m["success"].b, result, reason, message, p))
      case _ => None
  }

  /** The payment map loses nothing: the receiver rebuilds exactly the info that was sent. */
  lemma InfoMapRoundTrip(info: PaymentInfo)
    ensures MapToInfo(InfoToMap(info)) == Some(info)
  {
  }

  /** The response map loses nothing: the receiver rebuilds exactly the response that was sent. */
  lemma ResponseMapRoundTrip(response: PaymentResponse)
    ensures MapToResponse(ResponseToMap(response)) == Some(response)
  {
    var m := ResponseToMap(response);
    assert StringOf(m["result"]) == Some(response.result);
    assert StringOf(m["reason"]) == Some(response.reason);
    assert StringOf(m["message"]) == Some(response.message);
    if response.payment.Some? {
      InfoMapRoundTrip(response.payment.value);
    }
  }

  /**
   * End to end, a vendor sale response reaches the channel with its outcome and, when it has a
   * payment, with the payment's identifiers and amounts unchanged inside the nested map.
   */
  lemma SaleResponseReachesChannel(response: CloverVendor.SaleResponse)
    ensures var m := ResponseToMap(ToPaymentResponse(response));
      && m["success"] == Bool(response.success == Some(true))
      && m["reason"] == OfString(response.reason)
      && m["message"] == OfString(response.message)
      && (response.payment.None? <==> m["payment"] == Null)
      && (response.payment.Some? ==>
            var p := response.payment.value;
            && m["payment"].Map?
            && m["payment"].entries["id"] == OfString(p.id)
            && m["payment"].entries["orderId"] == OfString(p.orderId)
            && m["payment"].entries["externalPaymentId"] == OfString(p.externalPaymentId)
            && m["payment"].entries["amount"] == OfLong(p.amount)
            && m["payment"].entries["tipAmount"] == OfLong(p.tipAmount)
            && m["payment"].entries["taxAmount"] == OfLong(p.taxAmount))
  {
  }
}
