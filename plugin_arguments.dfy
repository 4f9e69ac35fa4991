/**
 * How the plugin turns a method call's arguments into a vendor request: each operation reads its
 * arguments in a fixed order, replaces absent ones by its defaults, sets optional request fields
 * only when given, and fails with the first argument whose runtime type is not the one asked for.
 * An enum argument whose string names no constant leaves its field unset.
 */
module PluginArguments {
  import opened KotlinTypes
  import opened ChannelValues
  import opened CloverVendor

  /** The types the plugin asks its arguments for. */
  datatype ArgumentType = StringType | LongType | IntType | BoolType

  /** The argument is present and not `null`. */
  predicate Given(args: Payload, key: string) {
    key in args && args[key] != Null
  }

  /** Reading `key` as `t` does not throw: it is absent, `null`, or of that type. */
  predicate Castable(args: Payload, key: string, t: ArgumentType) {
    key !in args ||
    match args[key]
    case Null => true
    case Str(_) => t == StringType
    case Long(_) => t == LongType
    case Int(_) => t == IntType
    case Bool(_) => t == BoolType
    case _ => false
  }

  /** The string given under `key`, if a string was given. */
  function GivenString(args: Payload, key: string): Option<string> {
    if key in args && args[key].Str? then Some(args[key].s) else None
  }

  /** The `Long` given under `key`, if a `Long` was given. */
  function GivenLong(args: Payload, key: string): Option<Int64> {
    if key in args && args[key].Long? then Some(args[key].l) else None
  }

  /** The `Int` given under `key`, if an `Int` was given. */
  function GivenInt(args: Payload, key: string): Option<Int32> {
    if key in args && args[key].Int? then Some(args[key].i) else None
  }

  /** The `Boolean` given under `key`, if a `Boolean` was given. */
  function GivenBool(args: Payload, key: string): Option<bool> {
    if key in args && args[key].Bool? then Some(args[key].b) else None
  }

  /** The `VaultedCard` built from a card id: a fresh card whose `first6` is the id. */
  function CardOf(id: Option<string>): (r: Option<VaultedCard>)
    ensures r.Some? <==> id.Some?
    ensures id.Some? ==> r.value.first6 == id
  {
    match id
    case None => None
    case Some(first6) => Some(VaultedCard(Some(first6)))
  }

  /** `Enum.valueOf(s)` inside a `try` that ignores the failure: the field stays unset. */
  function ConstantOf(names: set<string>, s: Option<string>): (r: Option<EnumConstant>)
    ensures r.Some? <==> s.Some? && s.value in names
    ensures r.Some? ==> r.value.name == s.value
  {
    match s
    case None => None
    case Some(name) => ValueOf(names, name)
  }

  /** The arguments of `initialize`, once read. */
  datatype Connection = Connection(account: Option<Account>, remoteApplicationId: Option<string>)

  /**
   * Why `initialize`'s arguments give no connection: an argument of the wrong runtime type, or
   * an account name or type that the `Account` constructor refuses.
   */
  datatype ConnectionFailure = Mistyped(cast: CastFailure) | RefusedAccount

  predicate InitializeCastable(args: Payload) {
    && Castable(args, "accountName", StringType)
    && Castable(args, "accountType", StringType)
    && Castable(args, "remoteApplicationId", StringType)
  }

  /** The account type `initialize` uses: the one given, or `com.clover.account` when none is. */
  function AccountTypeOf(args: Payload): string {
    GivenString(args, "accountType").GetOr("com.clover.account")
  }

  /**
   * `initialize`'s arguments: the three are read first, so a mistyped one fails before the
   * account is built; then an account exactly when a name is given, of type
   * `com.clover.account` unless another type is given, refused when the name or the type is
   * empty; and the optional application id.
   */
  function ConnectionOf(args: Payload): (r: Result<Connection, ConnectionFailure>)
    ensures r.Failure? && r.error.Mistyped? <==> !InitializeCastable(args)
    ensures r.Failure? && r.error.Mistyped? ==> Given(args, r.error.cast.key)
    ensures InitializeCastable(args) ==>
      (r.Failure? <==> Given(args, "accountName") && !AccountAccepts(args["accountName"].s, AccountTypeOf(args)))
    ensures r.Success? ==>
      && (r.value.account.Some? <==> Given(args, "accountName"))
      && (r.value.account.Some? ==>
            && r.value.account.value == Account(args["accountName"].s, AccountTypeOf(args))
            && AccountAccepts(r.value.account.value.name, r.value.account.value.accountType))
      && r.value.remoteApplicationId == GivenString(args, "remoteApplicationId")
  {
    match (StringArgument(args, "accountName"), StringArgument(args, "accountType"), StringArgument(args, "remoteApplicationId"))
    case (Failure(f), _, _) => Failure(Mistyped(f))
    case (_, Failure(f), _) => Failure(Mistyped(f))
    case (_, _, Failure(f)) => Failure(Mistyped(f))
    case (Success(accountName), Success(accountType), Success(remoteApplicationId)) =>
      match accountName
      case None => Success(Connection(None, remoteApplicationId))
      case Some(name) =>
        var accountType := accountType.GetOr("com.clover.account");
        if AccountAccepts(name, accountType) then Success(Connection(Some(Account(name, accountType)), remoteApplicationId))
        else Failure(RefusedAccount)
  }

  predicate SaleCastable(args: Payload) {
    && SaleAmountsCastable(args)
    && SaleDetailsCastable(args)
    && SaleCardCastable(args)
    && SaleOfflineCastable(args)
  }

  predicate SaleAmountsCastable(args: Payload) {
    && Castable(args, "amount", LongType)
    && Castable(args, "externalId", StringType)
    && Castable(args, "tipAmount", LongType)
    && Castable(args, "taxAmount", LongType)
  }

  predicate SaleDetailsCastable(args: Payload) {
    && Castable(args, "tippableAmount", LongType)
    && Castable(args, "orderId", StringType)
    && Castable(args, "disablePrinting", BoolType)
    && Castable(args, "disableReceiptSelection", BoolType)
  }

  predicate SaleCardCastable(args: Payload) {
    && Castable(args, "signatureEntryLocation", StringType)
    && Castable(args, "signatureThreshold", LongType)
    && Castable(args, "cardEntryMethods", IntType)
    && Castable(args, "vaultedCard", StringType)
  }

  predicate SaleOfflineCastable(args: Payload) {
    && Castable(args, "allowOfflinePayment", BoolType)
    && Castable(args, "approveOfflinePaymentWithoutPrompt", BoolType)
    && Castable(args, "tipMode", StringType)
    && Castable(args, "disableRestartTransactionOnFail", BoolType)
  }

  /**
   * `sale`'s request. Amounts default to 0, the external id to the empty string and the two
   * printing flags to false; the optional fields are set exactly when given; the signature
   * location and tip mode are set only when their names are constants of `locations` and
   * `tipModes`; the transaction type is left unset. The sixteen arguments are read in four
   * stages, in the source's order, so a mistyped argument fails the call at the same point.
   */
  function SaleRequestOf(args: Payload, locations: set<string>, tipModes: set<string>): (r: Result<SaleRequest, CastFailure>)
    ensures r.Success? <==> SaleCastable(args)
    ensures r.Failure? ==> Given(args, r.error.key)
    ensures r.Success? ==>
      var q := r.value;
      && q.amount == Some(GivenLong(args, "amount").GetOr(0))
      && q.externalId == Some(GivenString(args, "externalId").GetOr(""))
      && q.tipAmount == Some(GivenLong(args, "tipAmount").GetOr(0))
      && q.taxAmount == Some(GivenLong(args, "taxAmount").GetOr(0))
      && q.disablePrinting == Some(GivenBool(args, "disablePrinting").GetOr(false))
      && q.disableReceiptSelection == Some(GivenBool(args, "disableReceiptSelection").GetOr(false))
      && q.tippableAmount == GivenLong(args, "tippableAmount")
      && q.orderId == GivenString(args, "orderId")
      && q.signatureThreshold == GivenLong(args, "signatureThreshold")
      && q.cardEntryMethods == GivenInt(args, "cardEntryMethods")
      && q.allowOfflinePayment == GivenBool(args, "allowOfflinePayment")
      && q.approveOfflinePaymentWithoutPrompt == GivenBool(args, "approveOfflinePaymentWithoutPrompt")
      && q.disableRestartTransactionOnFail == GivenBool(args, "disableRestartTransactionOnFail")
      && q.vaultedCard == CardOf(GivenString(args, "vaultedCard"))
      && q.signatureEntryLocation == ConstantOf(locations, GivenString(args, "signatureEntryLocation"))
      && q.tipMode == ConstantOf(tipModes, GivenString(args, "tipMode"))
      && q.transactionType.None?
  {
    var amounts :- SaleAmounts(args);
    var details :- SaleDetails(args, amounts);
    var card :- SaleCard(args, locations, details);
    SaleOffline(args, tipModes, card)
  }

  /** The first stage of `sale`: a fresh request with the amounts and the external id, defaulted. */
  function SaleAmounts(args: Payload): (r: Result<SaleRequest, CastFailure>)
    ensures r.Success? <==> SaleAmountsCastable(args)
    ensures r.Failure? ==> Given(args, r.error.key)
    ensures r.Success? ==> r.value == SaleRequest(
      amount := Some(GivenLong(args, "amount").GetOr(0)),
      externalId := Some(GivenString(args, "externalId").GetOr("")),
      tipAmount := Some(GivenLong(args, "tipAmount").GetOr(0)),
      taxAmount := Some(GivenLong(args, "taxAmount").GetOr(0)))
  {
    var amount :- LongArgument(args, "amount");
    var externalId :- StringArgument(args, "externalId");
    var tipAmount :- LongArgument(args, "tipAmount");
    var taxAmount :- LongArgument(args, "taxAmount");
    Success(SaleRequest(
      amount := Some(amount.GetOr(0)),
      externalId := Some(externalId.GetOr("")),
      tipAmount := Some(tipAmount.GetOr(0)),
      taxAmount := Some(taxAmount.GetOr(0))))
  }

  /** The second stage of `sale`: the tippable amount and order when given, the printing flags defaulted. */
  function SaleDetails(args: Payload, q: SaleRequest): (r: Result<SaleRequest, CastFailure>)
    ensures r.Success? <==> SaleDetailsCastable(args)
    ensures r.Failure? ==> Given(args, r.error.key)
    ensures r.Success? ==> r.value == q.(
      tippableAmount := GivenLong(args, "tippableAmount"),
      orderId := GivenString(args, "orderId"),
      disablePrinting := Some(GivenBool(args, "disablePrinting").GetOr(false)),
      disableReceiptSelection := Some(GivenBool(args, "disableReceiptSelection").GetOr(false)))
  {
    var tippableAmount :- LongArgument(args, "tippableAmount");
    var orderId :- StringArgument(args, "orderId");
    var disablePrinting :- BoolArgument(args, "disablePrinting");
    var disableReceiptSelection :- BoolArgument(args, "disableReceiptSelection");
    Success(q.(
      tippableAmount := tippableAmount,
      orderId := orderId,
      disablePrinting := Some(disablePrinting.GetOr(false)),
      disableReceiptSelection := Some(disableReceiptSelection.GetOr(false))))
  }

  /** The third stage of `sale`: signature location (when a known constant), threshold, entry methods and card, when given. */
  function SaleCard(args: Payload, locations: set<string>, q: SaleRequest): (r: Result<SaleRequest, CastFailure>)
    ensures r.Success? <==> SaleCardCastable(args)
    ensures r.Failure? ==> Given(args, r.error.key)
    ensures r.Success? ==> r.value == q.(
      signatureEntryLocation := ConstantOf(locations, GivenString(args, "signatureEntryLocation")),
      signatureThreshold := GivenLong(args, "signatureThreshold"),
      cardEntryMethods := GivenInt(args, "cardEntryMethods"),
      vaultedCard := CardOf(GivenString(args, "vaultedCard")))
  {
    var signatureEntryLocation :- StringArgument(args, "signatureEntryLocation");
    var signatureThreshold :- LongArgument(args, "signatureThreshold");
    var cardEntryMethods :- IntArgument(args, "cardEntryMethods");
    var vaultedCardId :- StringArgument(args, "vaultedCard");
    Success(q.(
      signatureEntryLocation := ConstantOf(locations, signatureEntryLocation),
      signatureThreshold := signatureThreshold,
      cardEntryMethods := cardEntryMethods,
      vaultedCard := CardOf(vaultedCardId)))
  }

  /** The last stage of `sale`: the offline flags and restart flag when given, the tip mode when a known constant. */
  function SaleOffline(args: Payload, tipModes: set<string>, q: SaleRequest): (r: Result<SaleRequest, CastFailure>)
    ensures r.Success? <==> SaleOfflineCastable(args)
    ensures r.Failure? ==> Given(args, r.error.key)
    ensures r.Success? ==> r.value == q.(
      allowOfflinePayment := GivenBool(args, "allowOfflinePayment"),
      approveOfflinePaymentWithoutPrompt := GivenBool(args, "approveOfflinePaymentWithoutPrompt"),
      tipMode := ConstantOf(tipModes, GivenString(args, "tipMode")),
      disableRestartTransactionOnFail := GivenBool(args, "disableRestartTransactionOnFail"))
  {
    var allowOfflinePayment :- BoolArgument(args, "allowOfflinePayment");
    var approveOfflinePaymentWithoutPrompt :- BoolArgument(args, "approveOfflinePaymentWithoutPrompt");
    var tipMode :- StringArgument(args, "tipMode");
    var disableRestartTransactionOnFail :- BoolArgument(args, "disableRestartTransactionOnFail");
    Success(q.(
      allowOfflinePayment := allowOfflinePayment,
      approveOfflinePaymentWithoutPrompt := approveOfflinePaymentWithoutPrompt,
      tipMode := ConstantOf(tipModes, tipMode),
      disableRestartTransactionOnFail := disableRestartTransactionOnFail))
  }

  predicate PreAuthCastable(args: Payload) {
    && Castable(args, "amount", LongType)
    && Castable(args, "externalId", StringType)
    && Castable(args, "cardEntryMethods", IntType)
    && Castable(args, "vaultedCard", StringType)
    && Castable(args, "requireNote", BoolType)
    && Castable(args, "note", StringType)
  }

  /**
   * `preAuth`'s request: amount 0 and external id empty by default, entry methods and card when
   * given. `requireNote` and `note` are read (so a mistyped one fails the call) but not used.
   */
  function PreAuthRequestOf(args: Payload): (r: Result<PreAuthRequest, CastFailure>)
    ensures r.Success? <==> PreAuthCastable(args)
    ensures r.Failure? ==> Given(args, r.error.key)
    ensures r.Success? ==> r.value == PreAuthRequest(
      amount := Some(GivenLong(args, "amount").GetOr(0)),
      externalId := Some(GivenString(args, "externalId").GetOr("")),
      cardEntryMethods := GivenInt(args, "cardEntryMethods"),
      vaultedCard := CardOf(GivenString(args, "vaultedCard")))
  {
    var amount :- LongArgument(args, "amount");
    var externalId :- StringArgument(args, "externalId");
    var cardEntryMethods :- IntArgument(args, "cardEntryMethods");
    var vaultedCardId :- StringArgument(args, "vaultedCard");
    var _ :- BoolArgument(args, "requireNote");
    var _ :- StringArgument(args, "note");
    Success(PreAuthRequest(
      amount := Some(amount.GetOr(0)),
      externalId := Some(externalId.GetOr("")),
      cardEntryMethods := cardEntryMethods,
      vaultedCard := CardOf(vaultedCardId)))
  }

  predicate CapturePreAuthCastable(args: Payload) {
    && Castable(args, "amount", LongType)
    && Castable(args, "paymentId", StringType)
    && Castable(args, "tipAmount", LongType)
  }

  /** `capturePreAuth`'s request: amount and tip 0, payment id empty, by default. */
  function CapturePreAuthRequestOf(args: Payload): (r: Result<CapturePreAuthRequest, CastFailure>)
    ensures r.Success? <==> CapturePreAuthCastable(args)
    ensures r.Failure? ==> Given(args, r.error.key)
    ensures r.Success? ==> r.value == CapturePreAuthRequest(
      amount := Some(GivenLong(args, "amount").GetOr(0)),
      paymentId := Some(GivenString(args, "paymentId").GetOr("")),
      tipAmount := Some(GivenLong(args, "tipAmount").GetOr(0)))
  {
    var amount :- LongArgument(args, "amount");
    var paymentId :- StringArgument(args, "paymentId");
    var tipAmount :- LongArgument(args, "tipAmount");
    Success(CapturePreAuthRequest(
      amount := Some(amount.GetOr(0)),
      paymentId := Some(paymentId.GetOr("")),
      tipAmount := Some(tipAmount.GetOr(0))))
  }

  predicate TipAdjustAuthCastable(args: Payload) {
    && Castable(args, "orderId", StringType)
    && Castable(args, "paymentId", StringType)
    && Castable(args, "tipAmount", LongType)
  }

  /** `tipAdjustAuth`'s request: order and payment ids empty, tip 0, by default. */
  function TipAdjustAuthRequestOf(args: Payload): (r: Result<TipAdjustAuthRequest, CastFailure>)
    ensures r.Success? <==> TipAdjustAuthCastable(args)
    ensures r.Failure? ==> Given(args, r.error.key)
    ensures r.Success? ==> r.value == TipAdjustAuthRequest(
      orderId := Some(GivenString(args, "orderId").GetOr("")),
      paymentId := Some(GivenString(args, "paymentId").GetOr("")),
      tipAmount := Some(GivenLong(args, "tipAmount").GetOr(0)))
  {
    var orderId :- StringArgument(args, "orderId");
    var paymentId :- StringArgument(args, "paymentId");
    var tipAmount :- LongArgument(args, "tipAmount");
    Success(TipAdjustAuthRequest(
      orderId := Some(orderId.GetOr("")),
      paymentId := Some(paymentId.GetOr("")),
      tipAmount := Some(tipAmount.GetOr(0))))
  }

  predicate RefundPaymentCastable(args: Payload) {
    && Castable(args, "orderId", StringType)
    && Castable(args, "paymentId", StringType)
    && Castable(args, "amount", LongType)
    && Castable(args, "fullRefund", BoolType)
    && Castable(args, "disablePrinting", BoolType)
    && Castable(args, "disableReceiptSelection", BoolType)
  }

  /** `refundPayment`'s request: ids empty and flags false by default; the amount only when given. */
  function RefundPaymentRequestOf(args: Payload): (r: Result<RefundPaymentRequest, CastFailure>)
    ensures r.Success? <==> RefundPaymentCastable(args)
    ensures r.Failure? ==> Given(args, r.error.key)
    ensures r.Success? ==> r.value == RefundPaymentRequest(
      orderId := Some(GivenString(args, "orderId").GetOr("")),
      paymentId := Some(GivenString(args, "paymentId").GetOr("")),
      amount := GivenLong(args, "amount"),
      fullRefund := Some(GivenBool(args, "fullRefund").GetOr(false)),
      disablePrinting := Some(GivenBool(args, "disablePrinting").GetOr(false)),
      disableReceiptSelection := Some(GivenBool(args, "disableReceiptSelection").GetOr(false)))
  {
    var orderId :- StringArgument(args, "orderId");
    var paymentId :- StringArgument(args, "paymentId");
    var amount :- LongArgument(args, "amount");
    var fullRefund :- BoolArgument(args, "fullRefund");
    var disablePrinting :- BoolArgument(args, "disablePrinting");
    var disableReceiptSelection :- BoolArgument(args, "disableReceiptSelection");
    Success(RefundPaymentRequest(
      orderId := Some(orderId.GetOr("")),
      paymentId := Some(paymentId.GetOr("")),
      amount := amount,
      fullRefund := Some(fullRefund.GetOr(false)),
      disablePrinting := Some(disablePrinting.GetOr(false)),
      disableReceiptSelection := Some(disableReceiptSelection.GetOr(false))))
  }

  predicate ManualRefundCastable(args: Payload) {
    && Castable(args, "amount", LongType)
    && Castable(args, "externalId", StringType)
    && Castable(args, "cardEntryMethods", IntType)
    && Castable(args, "disablePrinting", BoolType)
    && Castable(args, "disableReceiptSelection", BoolType)
  }

  /** `manualRefund`'s request: amount 0, external id empty, flags false by default. */
  function ManualRefundRequestOf(args: Payload): (r: Result<ManualRefundRequest, CastFailure>)
    ensures r.Success? <==> ManualRefundCastable(args)
    ensures r.Failure? ==> Given(args, r.error.key)
    ensures r.Success? ==> r.value == ManualRefundRequest(
      amount := Some(GivenLong(args, "amount").GetOr(0)),
      externalId := Some(GivenString(args, "externalId").GetOr("")),
      cardEntryMethods := GivenInt(args, "cardEntryMethods"),
      disablePrinting := Some(GivenBool(args, "disablePrinting").GetOr(false)),
      disableReceiptSelection := Some(GivenBool(args, "disableReceiptSelection").GetOr(false)))
  {
    var amount :- LongArgument(args, "amount");
    var externalId :- StringArgument(args, "externalId");
    var cardEntryMethods :- IntArgument(args, "cardEntryMethods");
    var disablePrinting :- BoolArgument(args, "disablePrinting");
    var disableReceiptSelection :- BoolArgument(args, "disableReceiptSelection");
    Success(ManualRefundRequest(
      amount := Some(amount.GetOr(0)),
      externalId := Some(externalId.GetOr("")),
      cardEntryMethods := cardEntryMethods,
      disablePrinting := Some(disablePrinting.GetOr(false)),
      disableReceiptSelection := Some(disableReceiptSelection.GetOr(false))))
  }

  predicate VoidPaymentCastable(args: Payload) {
    && Castable(args, "orderId", StringType)
    && Castable(args, "paymentId", StringType)
    && Castable(args, "voidReason", StringType)
    && Castable(args, "disablePrinting", BoolType)
    && Castable(args, "disableReceiptSelection", BoolType)
  }

  /** `voidPayment`'s request: ids empty and flags false by default; the reason only when given. */
  function VoidPaymentRequestOf(args: Payload): (r: Result<VoidPaymentRequest, CastFailure>)
    ensures r.Success? <==> VoidPaymentCastable(args)
    ensures r.Failure? ==> Given(args, r.error.key)
    ensures r.Success? ==> r.value == VoidPaymentRequest(
      orderId := Some(GivenString(args, "orderId").GetOr("")),
      paymentId := Some(GivenString(args, "paymentId").GetOr("")),
      voidReason := GivenString(args, "voidReason"),
      disablePrinting := Some(GivenBool(args, "disablePrinting").GetOr(false)),
      disableReceiptSelection := Some(GivenBool(args, "disableReceiptSelection").GetOr(false)))
  {
    var orderId :- StringArgument(args, "orderId");
    var paymentId :- StringArgument(args, "paymentId");
    var voidReason :- StringArgument(args, "voidReason");
    var disablePrinting :- BoolArgument(args, "disablePrinting");
    var disableReceiptSelection :- BoolArgument(args, "disableReceiptSelection");
    Success(VoidPaymentRequest(
      orderId := Some(orderId.GetOr("")),
      paymentId := Some(paymentId.GetOr("")),
      voidReason := voidReason,
      disablePrinting := Some(disablePrinting.GetOr(false)),
      disableReceiptSelection := Some(disableReceiptSelection.GetOr(false))))
  }

  predicate VoidPaymentRefundCastable(args: Payload) {
    && Castable(args, "refundId", StringType)
    && Castable(args, "orderId", StringType)
    && Castable(args, "disablePrinting", BoolType)
    && Castable(args, "disableReceiptSelection", BoolType)
  }

  /** `voidPaymentRefund`'s request: ids empty and flags false by default. */
  function VoidPaymentRefundRequestOf(args: Payload): (r: Result<VoidPaymentRefundRequest, CastFailure>)
    ensures r.Success? <==> VoidPaymentRefundCastable(args)
    ensures r.Failure? ==> Given(args, r.error.key)
    ensures r.Success? ==> r.value == VoidPaymentRefundRequest(
      refundId := Some(GivenString(args, "refundId").GetOr("")),
      orderId := Some(GivenString(args, "orderId").GetOr("")),
      disablePrinting := Some(GivenBool(args, "disablePrinting").GetOr(false)),
      disableReceiptSelection := Some(GivenBool(args, "disableReceiptSelection").GetOr(false)))
  {
    var refundId :- StringArgument(args, "refundId");
    var orderId :- StringArgument(args, "orderId");
    var disablePrinting :- BoolArgument(args, "disablePrinting");
    var disableReceiptSelection :- BoolArgument(args, "disableReceiptSelection");
    Success(VoidPaymentRefundRequest(
      refundId := Some(refundId.GetOr("")),
      orderId := Some(orderId.GetOr("")),
      disablePrinting := Some(disablePrinting.GetOr(false)),
      disableReceiptSelection := Some(disableReceiptSelection.GetOr(false))))
  }

  /** `retrievePayment`'s request: the external payment id, empty by default. */
  function RetrievePaymentRequestOf(args: Payload): (r: Result<RetrievePaymentRequest, CastFailure>)
    ensures r.Success? <==> Castable(args, "externalPaymentId", StringType)
    ensures r.Failure? ==> Given(args, r.error.key)
    ensures r.Success? ==> r.value == RetrievePaymentRequest(Some(GivenString(args, "externalPaymentId").GetOr("")))
  {
    var externalPaymentId :- StringArgument(args, "externalPaymentId");
    Success(RetrievePaymentRequest(externalPaymentId := Some(externalPaymentId.GetOr(""))))
  }

  predicate CloseoutCastable(args: Payload) {
    && Castable(args, "allowOpenTabs", BoolType)
    && Castable(args, "batchId", StringType)
  }

  /** `closeout`'s request: open tabs not allowed by default; the batch only when given. */
  function CloseoutRequestOf(args: Payload): (r: Result<CloseoutRequest, CastFailure>)
    ensures r.Success? <==> CloseoutCastable(args)
    ensures r.Failure? ==> Given(args, r.error.key)
    ensures r.Success? ==> r.value == CloseoutRequest(Some(GivenBool(args, "allowOpenTabs").GetOr(false)), GivenString(args, "batchId"))
  {
    var allowOpenTabs :- BoolArgument(args, "allowOpenTabs");
    var batchId :- StringArgument(args, "batchId");
    Success(CloseoutRequest(allowOpenTabs := Some(allowOpenTabs.GetOr(false)), batchId := batchId))
  }

  /** `readCardData`'s request: the entry methods only when given. */
  function ReadCardDataRequestOf(args: Payload): (r: Result<ReadCardDataRequest, CastFailure>)
    ensures r.Success? <==> Castable(args, "cardEntryMethods", IntType)
    ensures r.Failure? ==> Given(args, r.error.key)
    ensures r.Success? ==> r.value == ReadCardDataRequest(GivenInt(args, "cardEntryMethods"))
  {
    var cardEntryMethods :- IntArgument(args, "cardEntryMethods");
    Success(ReadCardDataRequest(cardEntryMethods := cardEntryMethods))
  }

  /** With no arguments at all, `sale` sends 0 amounts, an empty external id and both printing flags off, and nothing else. */
  lemma SaleDefaults(locations: set<string>, tipModes: set<string>)
    ensures SaleRequestOf(map[], locations, tipModes) ==
      Success(SaleRequest(amount := Some(0), externalId := Some(""), tipAmount := Some(0), taxAmount := Some(0),
                          disablePrinting := Some(false), disableReceiptSelection := Some(false)))
  {
  }
}
