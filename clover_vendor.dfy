/**
 * What the bridge sees of the vendor payment SDK: plain records for the objects it reads and
 * builds, the connector as a present-or-absent handle, the connector calls as values, and the
 * outcome of a vendor call as an input (it completes or throws). Nothing of the SDK's behaviour
 * is modelled.
 */
module CloverVendor {
  import opened KotlinTypes

  /** A constant of a vendor enum, known by its `name`. */
  datatype EnumConstant = EnumConstant(name: string)

  /**
   * `SomeEnum.valueOf(s)` for an enum whose constants are named `names`: the constant named
   * `s`, or `None` where `valueOf` throws `IllegalArgumentException`.
   */
  function ValueOf(names: set<string>, s: string): (r: Option<EnumConstant>)
    ensures r.Some? <==> s in names
    ensures r.Some? ==> r.value.name == s
  {
    if s in names then Some(EnumConstant(s)) else None
  }

  /** An Android account (`Account(name, type)`). */
  datatype Account = Account(name: string, accountType: string)

  /** The Android `Account` constructor throws `IllegalArgumentException` unless both the name and the type are non-empty. */
  predicate AccountAccepts(name: string, accountType: string) {
    name != "" && accountType != ""
  }

  /** An open payment connector, remembered by the arguments it was created with. */
  datatype Connector = Connector(account: Option<Account>, remoteApplicationId: Option<string>)

  /** Whether a call into the vendor SDK returns or throws (with the exception's nullable message). */
  datatype VendorOutcome = Completes | Throws(message: Option<string>)

  /** A vendor payment, as far as the bridge reads it. */
  datatype Payment = Payment(
    id: Option<string> := None,
    orderId: Option<string> := None,
    externalPaymentId: Option<string> := None,
    amount: Option<Int64> := None,
    tipAmount: Option<Int64> := None,
    taxAmount: Option<Int64> := None,
    result: Option<EnumConstant> := None)

  /** The terminal's answer to a sale. Every getter is nullable. */
  datatype SaleResponse = SaleResponse(
    success: Option<bool> := None,
    result: Option<EnumConstant> := None,
    reason: Option<string> := None,
    message: Option<string> := None,
    payment: Option<Payment> := None)

  /** A question the terminal asks before it accepts a payment. */
  datatype Challenge = Challenge(challengeType: Option<EnumConstant> := None, message: Option<string> := None)

  /** The terminal asking the app to confirm a payment, with its challenges (nullable list). */
  datatype ConfirmPaymentRequest = ConfirmPaymentRequest(payment: Option<Payment> := None, challenges: Option<seq<Challenge>> := None)

  datatype VaultedCard = VaultedCard(first6: Option<string> := None)

  /** A sale request. A freshly constructed request has every field unset. */
  datatype SaleRequest = SaleRequest(
    amount: Option<Int64> := None,
    externalId: Option<string> := None,
    transactionType: Option<EnumConstant> := None,
    tipAmount: Option<Int64> := None,
    taxAmount: Option<Int64> := None,
    tippableAmount: Option<Int64> := None,
    orderId: Option<string> := None,
    disablePrinting: Option<bool> := None,
    disableReceiptSelection: Option<bool> := None,
    disableCashback: Option<bool> := None,
    disableDuplicateChecking: Option<bool> := None,
    disableRestartTransactionOnFail: Option<bool> := None,
    signatureEntryLocation: Option<EnumConstant> := None,
    signatureThreshold: Option<Int64> := None,
    cardEntryMethods: Option<Int32> := None,
    vaultedCard: Option<VaultedCard> := None,
    allowOfflinePayment: Option<bool> := None,
    approveOfflinePaymentWithoutPrompt: Option<bool> := None,
    tipMode: Option<EnumConstant> := None)

  datatype PreAuthRequest = PreAuthRequest(
    amount: Option<Int64> := None,
    externalId: Option<string> := None,
    cardEntryMethods: Option<Int32> := None,
    vaultedCard: Option<VaultedCard> := None)

  datatype CapturePreAuthRequest = CapturePreAuthRequest(
    amount: Option<Int64> := None,
    paymentId: Option<string> := None,
    tipAmount: Option<Int64> := None)

  datatype TipAdjustAuthRequest = TipAdjustAuthRequest(
    orderId: Option<string> := None,
    paymentId: Option<string> := None,
    tipAmount: Option<Int64> := None)

  datatype RefundPaymentRequest = RefundPaymentRequest(
    orderId: Option<string> := None,
    paymentId: Option<string> := None,
    amount: Option<Int64> := None,
    fullRefund: Option<bool> := None,
    disablePrinting: Option<bool> := None,
    disableReceiptSelection: Option<bool> := None)

  datatype ManualRefundRequest = ManualRefundRequest(
    amount: Option<Int64> := None,
    externalId: Option<string> := None,
    cardEntryMethods: Option<Int32> := None,
    disablePrinting: Option<bool> := None,
    disableReceiptSelection: Option<bool> := None)

  datatype VoidPaymentRequest = VoidPaymentRequest(
    orderId: Option<string> := None,
    paymentId: Option<string> := None,
    voidReason: Option<string> := None,
    disablePrinting: Option<bool> := None,
    disableReceiptSelection: Option<bool> := None)

  datatype VoidPaymentRefundRequest = VoidPaymentRefundRequest(
    refundId: Option<string> := None,
    orderId: Option<string> := None,
    disablePrinting: Option<bool> := None,
    disableReceiptSelection: Option<bool> := None)

  datatype RetrievePaymentRequest = RetrievePaymentRequest(externalPaymentId: Option<string> := None)

  datatype CloseoutRequest = CloseoutRequest(allowOpenTabs: Option<bool> := None, batchId: Option<string> := None)

  datatype ReadCardDataRequest = ReadCardDataRequest(cardEntryMethods: Option<Int32> := None)

  /** A call that reached the connector. */
  datatype ConnectorCall =
    | Sale(sale: SaleRequest)
    | PreAuth(preAuth: PreAuthRequest)
    | CapturePreAuth(capture: CapturePreAuthRequest)
    | TipAdjustAuth(tipAdjust: TipAdjustAuthRequest)
    | RefundPayment(refund: RefundPaymentRequest)
    | ManualRefund(manualRefund: ManualRefundRequest)
    | VoidPayment(voidPayment: VoidPaymentRequest)
    | VoidPaymentRefund(voidRefund: VoidPaymentRefundRequest)
    | RetrievePayment(retrieve: RetrievePaymentRequest)
    | RetrievePendingPayments
    | Closeout(closeout: CloseoutRequest)
    | ReadCardData(readCard: ReadCardDataRequest)
    | AcceptPayment(accepted: Payment)
    | RejectPayment(rejected: Payment, challenge: Challenge)
    | Dispose
}
