/**
 * The platform-channel plugin: it routes each method call by name, builds vendor requests from
 * the call's arguments, sends them only while a payment connector exists (otherwise it answers
 * `NOT_CONNECTED`), and keeps the payment and challenge of the terminal's last confirmation
 * request so that the app can confirm or reject that payment later.
 *
 * The connector is a present-or-absent handle; every call that reaches it is appended to a log,
 * and whether it throws is an input (`VendorOutcome`). The two vendor enums the plugin parses
 * (`DataEntryLocation`, `TipMode`) are given by the names of their constants.
 */
module CloverSdkPlugin {
  import opened KotlinTypes
  import opened ChannelValues
  import V = CloverVendor
  import opened PluginArguments

  /**
   * What `result.error` carries besides its code: an exception's message, the argument whose
   * cast failed, or the `Account` constructor's refusal of an empty name or type.
   */
  datatype ErrorDetail = Message(text: Option<string>) | BadArgument(failure: CastFailure) | InvalidAccount

  /** The answer to a method call: `result.success`, `result.error` or `result.notImplemented`. */
  datatype Reply = Ok(payload: Payload) | Error(code: string, detail: ErrorDetail) | NotImplemented

  /** A method invoked on the channel towards the app, with its arguments. */
  datatype ChannelEvent = ChannelEvent(name: string, payload: Payload)

  /** The plugin's fields, with the connector-call and channel-event logs. */
  datatype PluginState = PluginState(
    connector: Option<V.Connector>,
    account: Option<V.Account>,
    pendingPayment: Option<V.Payment>,
    pendingChallenge: Option<V.Challenge>,
    calls: seq<V.ConnectorCall>,
    events: seq<ChannelEvent>)

  /** A state after a call, with the reply given. */
  datatype Handled = Handled(state: PluginState, reply: Reply)

  /** The success payload every operation answers with: `success` true and a message. */
  function Confirmation(message: string): (p: Payload)
    ensures p.Keys == {"success", "message"}
    ensures p["success"] == Bool(true) && p["message"] == Str(message)
  {
    map["success" := Bool(true), "message" := Str(message)]
  }

  const NotConnected := Error("NOT_CONNECTED", Message(Some("El SDK no est\U{E1} conectado")))
  const NothingToConfirm := Error("NO_PENDING_PAYMENT", Message(Some("No hay un pago pendiente para confirmar. Debe llamarse desde onConfirmPaymentRequest")))
  const NothingToReject := Error("NO_PENDING_PAYMENT", Message(Some("No hay un pago pendiente para rechazar. Debe llamarse desde onConfirmPaymentRequest")))

  /** The operations the plugin answers, and `Unknown` for any other name. */
  datatype Operation =
    | Initialize | Disconnect
    | Sale | PreAuth | CapturePreAuth | TipAdjustAuth | RefundPayment | ManualRefund
    | VoidPayment | VoidPaymentRefund | RetrievePayment | RetrievePendingPayments | Closeout | ReadCardData
    | ConfirmPayment | RejectPayment
    | Unknown
  {
    /** The operations that build a request and send it to the connector. */
    predicate IsRequest() {
      !(Initialize? || Disconnect? || ConfirmPayment? || RejectPayment? || Unknown?)
    }
  }

  /** The channel method name of an operation. */
  function NameOf(op: Operation): string
    requires !op.Unknown?
  {
    match op
    case Initialize => "initialize"
    case Disconnect => "disconnect"
    case Sale => "sale"
    case PreAuth => "preAuth"
    case CapturePreAuth => "capturePreAuth"
    case TipAdjustAuth => "tipAdjustAuth"
    case RefundPayment => "refundPayment"
    case ManualRefund => "manualRefund"
    case VoidPayment => "voidPayment"
    case VoidPaymentRefund => "voidPaymentRefund"
    case RetrievePayment => "retrievePayment"
    case RetrievePendingPayments => "retrievePendingPayments"
    case Closeout => "closeout"
    case ReadCardData => "readCardData"
    case ConfirmPayment => "confirmPayment"
    case RejectPayment => "rejectPayment"
  }

  /** The `when (call.method)` of `onMethodCall`: the operation a name selects. */
  function OperationNamed(name: string): Operation {
    match name
    case "initialize" => Initialize
    case "disconnect" => Disconnect
    case "sale" => Sale
    case "preAuth" => PreAuth
    case "capturePreAuth" => CapturePreAuth
    case "tipAdjustAuth" => TipAdjustAuth
    case "refundPayment" => RefundPayment
    case "manualRefund" => ManualRefund
    case "voidPayment" => VoidPayment
    case "voidPaymentRefund" => VoidPaymentRefund
    case "retrievePayment" => RetrievePayment
    case "retrievePendingPayments" => RetrievePendingPayments
    case "confirmPayment" => ConfirmPayment
    case "rejectPayment" => RejectPayment
    case "closeout" => Closeout
    case "readCardData" => ReadCardData
    case _ => Unknown
  }

  /** Each operation is selected by its own name, and only by it: the dispatch has no overlapping or unreachable branch. */
  lemma DispatchIsExact(name: string, op: Operation)
    requires !op.Unknown?
    ensures OperationNamed(NameOf(op)) == op
    ensures OperationNamed(name) == op ==> name == NameOf(op)
  {
    match op
    case Initialize =>
    case Disconnect =>
    case Sale =>
    case PreAuth =>
    case CapturePreAuth =>
    case TipAdjustAuth =>
    case RefundPayment =>
    case ManualRefund =>
    case VoidPayment =>
    case VoidPaymentRefund =>
    case RetrievePayment =>
    case RetrievePendingPayments =>
    case Closeout =>
    case ReadCardData =>
    case ConfirmPayment =>
    case RejectPayment =>
  }

  /** The success message of a request operation. */
  function SentMessage(op: Operation): string
    requires op.IsRequest()
  {
    match op
    case Sale => "Solicitud de venta enviada"
    case PreAuth => "Solicitud de pre-autorizaci\U{F3}n enviada"
    case CapturePreAuth => "Solicitud de captura enviada"
    case TipAdjustAuth => "Solicitud de ajuste de propina enviada"
    case RefundPayment => "Solicitud de reembolso enviada"
    case ManualRefund => "Solicitud de reembolso manual enviada"
    case VoidPayment => "Solicitud de anulaci\U{F3}n enviada"
    case VoidPaymentRefund => "Solicitud de anulaci\U{F3}n de reembolso enviada"
    case RetrievePayment => "Solicitud de recuperaci\U{F3}n de pago enviada"
    case RetrievePendingPayments => "Solicitud de pagos pendientes enviada"
    case Closeout => "Solicitud de cierre enviada"
    case ReadCardData => "Solicitud de lectura de tarjeta enviada"
  }

  /** The operation a connector call is made for. */
  function OperationOf(call: V.ConnectorCall): Operation {
    match call
    case Sale(_) => Sale
    case PreAuth(_) => PreAuth
    case CapturePreAuth(_) => CapturePreAuth
    case TipAdjustAuth(_) => TipAdjustAuth
    case RefundPayment(_) => RefundPayment
    case ManualRefund(_) => ManualRefund
    case VoidPayment(_) => VoidPayment
    case VoidPaymentRefund(_) => VoidPaymentRefund
    case RetrievePayment(_) => RetrievePayment
    case RetrievePendingPayments => RetrievePendingPayments
    case Closeout(_) => Closeout
    case ReadCardData(_) => ReadCardData
    case AcceptPayment(_) => ConfirmPayment
    case RejectPayment(_, _) => RejectPayment
    case Dispose => Disconnect
  }

  /** A built request lifted into the connector call that carries it; a cast failure stays as it is. */
  function Wrap<T>(built: Result<T, CastFailure>, call: T -> V.ConnectorCall): (r: Result<V.ConnectorCall, CastFailure>)
    ensures r.Success? <==> built.Success?
    ensures built.Success? ==> r.value == call(built.value)
    ensures built.Failure? ==> r.error == built.error
  {
    match built
    case Success(q) => Success(call(q))
    case Failure(failure) => Failure(failure)
  }

  /** Whether every argument a request operation reads has the type it is read as. */
  predicate RequestCastable(op: Operation, args: Payload)
    requires op.IsRequest()
  {
    if op.Sale? then SaleCastable(args)
    else if op.PreAuth? then PreAuthCastable(args)
    else if op.CapturePreAuth? then CapturePreAuthCastable(args)
    else if op.TipAdjustAuth? then TipAdjustAuthCastable(args)
    else if op.RefundPayment? then RefundPaymentCastable(args)
    else if op.ManualRefund? then ManualRefundCastable(args)
    else if op.VoidPayment? then VoidPaymentCastable(args)
    else if op.VoidPaymentRefund? then VoidPaymentRefundCastable(args)
    else if op.RetrievePayment? then Castable(args, "externalPaymentId", StringType)
    else if op.Closeout? then CloseoutCastable(args)
    else if op.ReadCardData? then Castable(args, "cardEntryMethods", IntType)
    else true
  }

  /**
   * The connector call a request operation makes, built from its arguments: built exactly when
   * the operation's arguments cast, and then a call of that operation (which request it carries
   * is stated by the three functions below); a failure names an argument given with the wrong type.
   */
  function CallOf(op: Operation, args: Payload, locations: set<string>, tipModes: set<string>): (r: Result<V.ConnectorCall, CastFailure>)
    requires op.IsRequest()
    ensures r.Success? <==> RequestCastable(op, args)
    ensures r.Success? ==> OperationOf(r.value) == op
    ensures r.Failure? ==> Given(args, r.error.key)
    ensures op.RetrievePendingPayments? ==> r == Success(V.RetrievePendingPayments)
  {
    if op.Sale? || op.PreAuth? || op.CapturePreAuth? || op.TipAdjustAuth? then ChargeCallOf(op, args, locations, tipModes)
    else if op.RefundPayment? || op.ManualRefund? || op.VoidPayment? || op.VoidPaymentRefund? then ReversalCallOf(op, args)
    else QueryCallOf(op, args)
  }

  /** `CallOf` for the operations that charge a card. */
  function ChargeCallOf(op: Operation, args: Payload, locations: set<string>, tipModes: set<string>): (r: Result<V.ConnectorCall, CastFailure>)
    requires op.Sale? || op.PreAuth? || op.CapturePreAuth? || op.TipAdjustAuth?
    ensures r.Success? ==> OperationOf(r.value) == op
    ensures r.Failure? ==> Given(args, r.error.key)
    ensures op.Sale? ==> (r.Success? <==> SaleCastable(args))
    ensures op.Sale? && r.Success? ==> r.value == V.Sale(SaleRequestOf(args, locations, tipModes).value)
    ensures op.PreAuth? ==> (r.Success? <==> PreAuthCastable(args))
    ensures op.PreAuth? && r.Success? ==> r.value == V.PreAuth(PreAuthRequestOf(args).value)
    ensures op.CapturePreAuth? ==> (r.Success? <==> CapturePreAuthCastable(args))
    ensures op.CapturePreAuth? && r.Success? ==> r.value == V.CapturePreAuth(CapturePreAuthRequestOf(args).value)
    ensures op.TipAdjustAuth? ==> (r.Success? <==> TipAdjustAuthCastable(args))
    ensures op.TipAdjustAuth? && r.Success? ==> r.value == V.TipAdjustAuth(TipAdjustAuthRequestOf(args).value)
  {
    match op
    case Sale => Wrap(SaleRequestOf(args, locations, tipModes), q => V.Sale(q))
    case PreAuth => Wrap(PreAuthRequestOf(args), q => V.PreAuth(q))
    case CapturePreAuth => Wrap(CapturePreAuthRequestOf(args), q => V.CapturePreAuth(q))
    case TipAdjustAuth => Wrap(TipAdjustAuthRequestOf(args), q => V.TipAdjustAuth(q))
  }

  /** `CallOf` for the operations that give money back or cancel a payment. */
  function ReversalCallOf(op: Operation, args: Payload): (r: Result<V.ConnectorCall, CastFailure>)
    requires op.RefundPayment? || op.ManualRefund? || op.VoidPayment? || op.VoidPaymentRefund?
    ensures r.Success? ==> OperationOf(r.value) == op
    ensures r.Failure? ==> Given(args, r.error.key)
    ensures op.RefundPayment? ==> (r.Success? <==> RefundPaymentCastable(args))
    ensures op.RefundPayment? && r.Success? ==> r.value == V.RefundPayment(RefundPaymentRequestOf(args).value)
    ensures op.ManualRefund? ==> (r.Success? <==> ManualRefundCastable(args))
    ensures op.ManualRefund? && r.Success? ==> r.value == V.ManualRefund(ManualRefundRequestOf(args).value)
    ensures op.VoidPayment? ==> (r.Success? <==> VoidPaymentCastable(args))
    ensures op.VoidPayment? && r.Success? ==> r.value == V.VoidPayment(VoidPaymentRequestOf(args).value)
    ensures op.VoidPaymentRefund? ==> (r.Success? <==> VoidPaymentRefundCastable(args))
    ensures op.VoidPaymentRefund? && r.Success? ==> r.value == V.VoidPaymentRefund(VoidPaymentRefundRequestOf(args).value)
  {
    match op
    case RefundPayment => Wrap(RefundPaymentRequestOf(args), q => V.RefundPayment(q))
    case ManualRefund => Wrap(ManualRefundRequestOf(args), q => V.ManualRefund(q))
    case VoidPayment => Wrap(VoidPaymentRequestOf(args), q => V.VoidPayment(q))
    case VoidPaymentRefund => Wrap(VoidPaymentRefundRequestOf(args), q => V.VoidPaymentRefund(q))
  }

  /** `CallOf` for the operations that read data or close the batch. */
  function QueryCallOf(op: Operation, args: Payload): (r: Result<V.ConnectorCall, CastFailure>)
    requires op.RetrievePayment? || op.RetrievePendingPayments? || op.Closeout? || op.ReadCardData?
    ensures r.Success? ==> OperationOf(r.value) == op
    ensures r.Failure? ==> Given(args, r.error.key)
    ensures op.RetrievePayment? ==> (r.Success? <==> Castable(args, "externalPaymentId", StringType))
    ensures op.RetrievePayment? && r.Success? ==> r.value == V.RetrievePayment(RetrievePaymentRequestOf(args).value)
    ensures op.RetrievePendingPayments? ==> r == Success(V.RetrievePendingPayments)
    ensures op.Closeout? ==> (r.Success? <==> CloseoutCastable(args))
    ensures op.Closeout? && r.Success? ==> r.value == V.Closeout(CloseoutRequestOf(args).value)
    ensures op.ReadCardData? ==> (r.Success? <==> Castable(args, "cardEntryMethods", IntType))
    ensures op.ReadCardData? && r.Success? ==> r.value == V.ReadCardData(ReadCardDataRequestOf(args).value)
  {
    match op
    case RetrievePayment => Wrap(RetrievePaymentRequestOf(args), q => V.RetrievePayment(q))
    case RetrievePendingPayments => Success(V.RetrievePendingPayments)
    case Closeout => Wrap(CloseoutRequestOf(args), q => V.Closeout(q))
    case ReadCardData => Wrap(ReadCardDataRequestOf(args), q => V.ReadCardData(q))
  }

  /**
   * `initialize`: a mistyped argument, an account the `Account` constructor refuses, or a
   * failing connector constructor answers `INIT_ERROR` (the account is already stored in the
   * last case); otherwise a connector for the account and application id replaces any previous
   * one, and the confirmation is both sent to the app as `onInitialized` and returned.
   */
  function InitializeStep(s: PluginState, args: Payload, creation: V.VendorOutcome): (r: Handled)
    ensures r.reply.Ok? <==> ConnectionOf(args).Success? && creation.Completes?
    ensures !r.reply.Ok? ==> r.reply.Error? && r.reply.code == "INIT_ERROR" && r.state.connector == s.connector && r.state.events == s.events
    ensures r.state.pendingPayment == s.pendingPayment && r.state.pendingChallenge == s.pendingChallenge && r.state.calls == s.calls
    ensures ConnectionOf(args).Success? ==> r.state.account == ConnectionOf(args).value.account
    ensures ConnectionOf(args).Failure? ==> r.state == s && r.reply.Error? && r.reply.code == "INIT_ERROR"
    ensures ConnectionOf(args).Failure? && ConnectionOf(args).error.Mistyped? ==> r.reply.detail == BadArgument(ConnectionOf(args).error.cast)
    ensures ConnectionOf(args).Failure? && ConnectionOf(args).error.RefusedAccount? ==> r.reply.detail == InvalidAccount
    ensures r.reply.Ok? ==>
      var c := ConnectionOf(args).value;
      && r.reply.payload == Confirmation("SDK inicializado correctamente")
      && r.state.connector == Some(V.Connector(c.account, c.remoteApplicationId))
      && r.state.events == s.events + [ChannelEvent("onInitialized", r.reply.payload)]
  {
    match ConnectionOf(args)
    case Failure(Mistyped(failure)) => Handled(s, Error("INIT_ERROR", BadArgument(failure)))
    case Failure(RefusedAccount) => Handled(s, Error("INIT_ERROR", InvalidAccount))
    case Success(c) =>
      var withAccount := s.(account := c.account);
      match creation
      case Throws(message) => Handled(withAccount, Error("INIT_ERROR", Message(message)))
      case Completes =>
        var response := Confirmation("SDK inicializado correctamente");
        Handled(withAccount.(connector := Some(V.Connector(c.account, c.remoteApplicationId)),
                             events := s.events + [ChannelEvent("onInitialized", response)]),
                Ok(response))
  }

  /** The state once `paymentConnector?.dispose()` has been called: a present connector logs the call. */
  function DisposeCalled(s: PluginState): (r: PluginState)
    ensures s.connector.None? ==> r == s
    ensures s.connector.Some? ==> r == s.(calls := s.calls + [V.Dispose])
  {
    if s.connector.Some? then s.(calls := s.calls + [V.Dispose]) else s
  }

  /**
   * `disconnect`: disposes the connector if there is one and forgets it; only a throwing
   * `dispose` keeps it, answering `DISCONNECT_ERROR`.
   */
  function DisconnectStep(s: PluginState, disposal: V.VendorOutcome): (r: Handled)
    ensures r.reply.Ok? <==> s.connector.None? || disposal.Completes?
    ensures r.reply.Ok? ==> r.state == DisposeCalled(s).(connector := None) && r.reply.payload == Confirmation("Desconectado correctamente")
    ensures !r.reply.Ok? ==>
      r.state == DisposeCalled(s) && r.state.connector == s.connector && r.reply == Error("DISCONNECT_ERROR", Message(disposal.message))
  {
    if s.connector.Some? && disposal.Throws? then Handled(DisposeCalled(s), Error("DISCONNECT_ERROR", Message(disposal.message)))
    else Handled(DisposeCalled(s).(connector := None), Ok(Confirmation("Desconectado correctamente")))
  }

  /**
   * A request operation once its call is built: a bad argument answers `ERROR`; without a
   * connector the answer is `NOT_CONNECTED` and nothing is sent; otherwise the call is sent,
   * and the operation's confirmation is returned unless it throws.
   */
  function SendStep(s: PluginState, op: Operation, call: Result<V.ConnectorCall, CastFailure>, outcome: V.VendorOutcome): (r: Handled)
    requires op.IsRequest()
    ensures call.Failure? ==> r == Handled(s, Error("ERROR", BadArgument(call.error)))
    ensures call.Success? && s.connector.None? ==> r == Handled(s, NotConnected)
    ensures call.Success? && s.connector.Some? && outcome.Throws? ==> r.reply == Error("ERROR", Message(outcome.message))
    ensures r.reply.Ok? <==> call.Success? && s.connector.Some? && outcome.Completes?
    ensures r.reply.Ok? ==> r.reply.payload == Confirmation(SentMessage(op))
    ensures call.Success? && s.connector.Some? ==> r.state == s.(calls := s.calls + [call.value])
    ensures call.Failure? || s.connector.None? ==> r.state == s
  {
    match call
    case Failure(failure) => Handled(s, Error("ERROR", BadArgument(failure)))
    case Success(c) =>
      if s.connector.None? then Handled(s, NotConnected)
      else
        var sent := s.(calls := s.calls + [c]);
        match outcome
        case Throws(message) => Handled(sent, Error("ERROR", Message(message)))
        case Completes => Handled(sent, Ok(Confirmation(SentMessage(op))))
  }

  /**
   * `confirmPayment`: needs a pending payment (not a challenge); accepts it on the connector and,
   * once accepted, clears both pending slots. A missing connector or a throwing call keeps them.
   */
  function ConfirmStep(s: PluginState, outcome: V.VendorOutcome): (r: Handled)
    ensures r.reply == NothingToConfirm <==> s.pendingPayment.None?
    ensures s.pendingPayment.Some? && s.connector.None? ==> r == Handled(s, NotConnected)
    ensures r.reply.Ok? <==> s.pendingPayment.Some? && s.connector.Some? && outcome.Completes?
    ensures r.reply.Ok? ==>
      && r.reply.payload == Confirmation("Pago confirmado")
      && r.state == s.(calls := s.calls + [V.AcceptPayment(s.pendingPayment.value)], pendingPayment := None, pendingChallenge := None)
    ensures !r.reply.Ok? ==> r.state.pendingPayment == s.pendingPayment && r.state.pendingChallenge == s.pendingChallenge
  {
    if s.pendingPayment.None? then Handled(s, NothingToConfirm)
    else if s.connector.None? then Handled(s, NotConnected)
    else
      var sent := s.(calls := s.calls + [V.AcceptPayment(s.pendingPayment.value)]);
      match outcome
      case Throws(message) => Handled(sent, Error("ERROR", Message(message)))
      case Completes => Handled(sent.(pendingPayment := None, pendingChallenge := None), Ok(Confirmation("Pago confirmado")))
  }

  /**
   * `rejectPayment`: needs both a pending payment and a pending challenge; rejects the payment
   * for that challenge and, once rejected, clears both. A missing connector or a throwing call
   * (answered `REJECT_ERROR`) keeps them.
   */
  function RejectStep(s: PluginState, outcome: V.VendorOutcome): (r: Handled)
    ensures r.reply == NothingToReject <==> s.pendingPayment.None? || s.pendingChallenge.None?
    ensures s.pendingPayment.Some? && s.pendingChallenge.Some? && s.connector.None? ==> r == Handled(s, NotConnected)
    ensures r.reply.Ok? <==> s.pendingPayment.Some? && s.pendingChallenge.Some? && s.connector.Some? && outcome.Completes?
    ensures r.reply.Ok? ==>
      && r.reply.payload == Confirmation("Pago rechazado")
      && r.state == s.(calls := s.calls + [V.RejectPayment(s.pendingPayment.value, s.pendingChallenge.value)],
                       pendingPayment := None, pendingChallenge := None)
    ensures outcome.Throws? && s.pendingPayment.Some? && s.pendingChallenge.Some? && s.connector.Some? ==>
      r.reply == Error("REJECT_ERROR", Message(outcome.message))
    ensures !r.reply.Ok? ==> r.state.pendingPayment == s.pendingPayment && r.state.pendingChallenge == s.pendingChallenge
  {
    if s.pendingPayment.None? || s.pendingChallenge.None? then Handled(s, NothingToReject)
    else if s.connector.None? then Handled(s, NotConnected)
    else
      var sent := s.(calls := s.calls + [V.RejectPayment(s.pendingPayment.value, s.pendingChallenge.value)]);
      match outcome
      case Throws(message) => Handled(sent, Error("REJECT_ERROR", Message(message)))
      case Completes => Handled(sent.(pendingPayment := None, pendingChallenge := None), Ok(Confirmation("Pago rechazado")))
  }

  /**
   * `onMethodCall` once the name is parsed: an unknown operation is answered "not implemented".
   * An exception escaping an operation (a mistyped argument, a throwing vendor call) is
   * answered `ERROR`, except where the operation catches it itself. `outcome` is how the one
   * vendor call the operation makes ends.
   */
  function Handle(s: PluginState, op: Operation, args: Payload, outcome: V.VendorOutcome, locations: set<string>, tipModes: set<string>): Handled {
    if op.Initialize? then InitializeStep(s, args, outcome)
    else if op.Disconnect? then DisconnectStep(s, outcome)
    else if op.ConfirmPayment? then ConfirmStep(s, outcome)
    else if op.RejectPayment? then RejectStep(s, outcome)
    else if op.Unknown? then Handled(s, NotImplemented)
    else SendStep(s, op, CallOf(op, args, locations, tipModes), outcome)
  }

  /** `onConfirmPaymentRequest`: the request's payment and its first challenge (if any) become pending. */
  function ConfirmationRequestStep(s: PluginState, request: V.ConfirmPaymentRequest): (r: PluginState)
    ensures r.pendingPayment == request.payment
    ensures r.pendingChallenge.Some? <==> request.challenges.Some? && |request.challenges.value| > 0
    ensures r.pendingChallenge.Some? ==> r.pendingChallenge.value == request.challenges.value[0]
    ensures r == s.(pendingPayment := r.pendingPayment, pendingChallenge := r.pendingChallenge)
  {
    var first := match request.challenges
      case Some(challenges) => if |challenges| > 0 then Some(challenges[0]) else None
      case None => None;
    s.(pendingPayment := request.payment, pendingChallenge := first)
  }

  /** `onDetachedFromEngine`: disposes and forgets the connector; a throwing `dispose` leaves it. */
  function DetachStep(s: PluginState, disposal: V.VendorOutcome): (r: PluginState)
    ensures s.connector.Some? && disposal.Throws? ==> r == s.(calls := s.calls + [V.Dispose])
    ensures !(s.connector.Some? && disposal.Throws?) ==> r == DisposeCalled(s).(connector := None)
  {
    if s.connector.Some? && disposal.Throws? then DisposeCalled(s) else DisposeCalled(s).(connector := None)
  }

  /**
   * The connector guard: while there is no connector, no request operation succeeds or changes
   * anything, and one whose arguments cast is answered `NOT_CONNECTED`.
   */
  lemma NoConnectorNoRequest(s: PluginState, op: Operation, args: Payload, outcome: V.VendorOutcome, locations: set<string>, tipModes: set<string>)
    requires s.connector.None? && op.IsRequest()
    ensures var r := Handle(s, op, args, outcome, locations, tipModes);
      && r.state == s
      && !r.reply.Ok?
      && (CallOf(op, args, locations, tipModes).Success? ==> r.reply == NotConnected)
  {
  }

  /**
   * A request operation touches nothing but the call log, to which it adds at most one call,
   * a call of that same operation; it reports success only for a call that was sent.
   */
  lemma RequestSendsOnlyItsOwnCall(s: PluginState, op: Operation, args: Payload, outcome: V.VendorOutcome, locations: set<string>, tipModes: set<string>)
    requires op.IsRequest()
    ensures var r := Handle(s, op, args, outcome, locations, tipModes);
      && (r.state == s || (|r.state.calls| == |s.calls| + 1 && r.state == s.(calls := r.state.calls)
                           && r.state.calls[..|s.calls|] == s.calls && OperationOf(r.state.calls[|s.calls|]) == op))
      && (r.reply.Ok? ==> s.connector.Some? && r.state != s)
  {
    var call := CallOf(op, args, locations, tipModes);
    var r := Handle(s, op, args, outcome, locations, tipModes);
    assert r == SendStep(s, op, call, outcome);
    if r.state != s {
      assert r.state.calls == s.calls + [call.value];
    }
  }

  /**
   * With a connector, a request operation whose arguments cast sends exactly the call built from
   * them and succeeds unless that call throws; one whose arguments do not cast is answered
   * `ERROR` with the failed argument and sends nothing.
   */
  lemma ConnectedRequestSendsItsCall(s: PluginState, op: Operation, args: Payload, outcome: V.VendorOutcome,
                                     locations: set<string>, tipModes: set<string>)
    requires op.IsRequest() && s.connector.Some?
    ensures var r := Handle(s, op, args, outcome, locations, tipModes);
      var call := CallOf(op, args, locations, tipModes);
      && (RequestCastable(op, args) ==>
            && r.state == s.(calls := s.calls + [call.value])
            && (r.reply.Ok? <==> outcome.Completes?)
            && (outcome.Completes? ==> r.reply == Ok(Confirmation(SentMessage(op)))))
      && (!RequestCastable(op, args) ==> r == Handled(s, Error("ERROR", BadArgument(call.error))))
  {
    assert Handle(s, op, args, outcome, locations, tipModes) == SendStep(s, op, CallOf(op, args, locations, tipModes), outcome);
  }

  /**
   * `sale` with a connector and well-typed arguments sends the `SaleRequest` its arguments
   * build, with the defaults of `SaleRequestOf`, and confirms it once the call completes.
   */
  lemma SaleSendsBuiltRequest(s: PluginState, args: Payload, locations: set<string>, tipModes: set<string>)
    requires s.connector.Some? && SaleCastable(args)
    ensures Handle(s, Sale, args, V.Completes, locations, tipModes) ==
      Handled(s.(calls := s.calls + [V.Sale(SaleRequestOf(args, locations, tipModes).value)]),
              Ok(Confirmation("Solicitud de venta enviada")))
  {
    var call := CallOf(Sale, args, locations, tipModes);
    assert call == ChargeCallOf(Sale, args, locations, tipModes);
    assert Handle(s, Sale, args, V.Completes, locations, tipModes) == SendStep(s, Sale, call, V.Completes);
  }

  /** A name the plugin does not know changes nothing and is answered "not implemented"; every known name is answered otherwise. */
  lemma OnlyUnknownNamesAreNotImplemented(s: PluginState, name: string, args: Payload, outcome: V.VendorOutcome, locations: set<string>, tipModes: set<string>)
    ensures var r := Handle(s, OperationNamed(name), args, outcome, locations, tipModes);
      r.reply.NotImplemented? <==> OperationNamed(name).Unknown?
    ensures OperationNamed(name).Unknown? ==> Handle(s, OperationNamed(name), args, outcome, locations, tipModes) == Handled(s, NotImplemented)
  {
  }

  /** `disconnect` may be repeated: once it has succeeded, it succeeds again and changes nothing more. */
  lemma DisconnectIsIdempotent(s: PluginState, first: V.VendorOutcome, again: V.VendorOutcome)
    requires DisconnectStep(s, first).reply.Ok?
    ensures var once := DisconnectStep(s, first);
      DisconnectStep(once.state, again) == once
  {
  }

  /**
   * The confirmation flow: after the terminal asks to confirm a payment with at least one
   * challenge, rejecting it sends the payment with the first challenge and clears the pending
   * state, so a later confirm finds nothing to confirm.
   */
  lemma RejectAfterConfirmationRequest(s: PluginState, request: V.ConfirmPaymentRequest, later: V.VendorOutcome)
    requires s.connector.Some? && request.payment.Some?
    requires request.challenges.Some? && |request.challenges.value| > 0
    ensures var rejected := RejectStep(ConfirmationRequestStep(s, request), V.Completes);
      && rejected.reply == Ok(Confirmation("Pago rechazado"))
      && rejected.state.calls == s.calls + [V.RejectPayment(request.payment.value, request.challenges.value[0])]
      && ConfirmStep(rejected.state, later).reply == NothingToConfirm
  {
  }

  /**
   * A payment the terminal sends without challenges can be confirmed but not rejected: confirm
   * needs only the payment, reject needs the challenge too.
   */
  lemma ChallengeFreeRequest(s: PluginState, request: V.ConfirmPaymentRequest)
    requires s.connector.Some? && request.payment.Some?
    requires request.challenges.None? || request.challenges.value == []
    ensures var pending := ConfirmationRequestStep(s, request);
      && RejectStep(pending, V.Completes) == Handled(pending, NothingToReject)
      && ConfirmStep(pending, V.Completes).reply.Ok?
  {
  }

  /**
   * Channel integers that fit in 32 bits arrive as `Int`, and `sale` reads its amount as a
   * `Long`: such an amount fails the call with `ERROR` before anything is sent.
   */
  lemma IntAmountFailsSale(s: PluginState, amount: Int32, outcome: V.VendorOutcome, locations: set<string>, tipModes: set<string>)
    ensures Handle(s, Sale, map["amount" := Int(amount)], outcome, locations, tipModes)
      == Handled(s, Error("ERROR", BadArgument(CastFailure("amount"))))
  {
    var args := map["amount" := Int(amount)];
    assert SaleAmounts(args) == Failure(CastFailure("amount"));
  }

  /**
   * An empty account name, or an empty account type given with a name, makes the `Account`
   * constructor throw: `initialize` answers `INIT_ERROR` and changes nothing, whatever the
   * connector would have done.
   */
  lemma EmptyAccountIsRefused(s: PluginState, name: string, accountType: string, creation: V.VendorOutcome,
                              locations: set<string>, tipModes: set<string>)
    requires name == "" || accountType == ""
    ensures Handle(s, Initialize, map["accountName" := Str(name), "accountType" := Str(accountType)], creation, locations, tipModes)
      == Handled(s, Error("INIT_ERROR", InvalidAccount))
    ensures Handle(s, Initialize, map["accountName" := Str("")], creation, locations, tipModes)
      == Handled(s, Error("INIT_ERROR", InvalidAccount))
  {
    var args := map["accountName" := Str(name), "accountType" := Str(accountType)];
    assert InitializeCastable(args);
    assert ConnectionOf(args) == Failure(RefusedAccount);
    var bare := map["accountName" := Str("")];
    assert InitializeCastable(bare);
    assert ConnectionOf(bare) == Failure(RefusedAccount);
  }

  class CloverSdkPlugin {
    /** The constant names of the vendor's `DataEntryLocation` and `TipMode` enums. */
    const signatureLocations: set<string>
    const tipModes: set<string>

    var paymentConnector: Option<V.Connector>
    var account: Option<V.Account>
    var pendingPaymentForRejection: Option<V.Payment>
    var pendingChallengeForRejection: Option<V.Challenge>
    /** The calls made on the connector so far, in order. */
    var calls: seq<V.ConnectorCall>
    /** The methods invoked on the channel towards the app so far, in order. */
    var events: seq<ChannelEvent>

    function State(): PluginState
      reads this
    {
      PluginState(paymentConnector, account, pendingPaymentForRejection, pendingChallengeForRejection, calls, events)
    }

    constructor (signatureLocations: set<string>, tipModes: set<string>)
      ensures this.signatureLocations == signatureLocations && this.tipModes == tipModes
      ensures State() == PluginState(None, None, None, None, [], [])
    {
      this.signatureLocations := signatureLocations;
      this.tipModes := tipModes;
      paymentConnector := None;
      account := None;
      pendingPaymentForRejection := None;
      pendingChallengeForRejection := None;
      calls := [];
      events := [];
    }

    /** `onMethodCall`. */
    method OnMethodCall(name: string, args: Payload, outcome: V.VendorOutcome) returns (reply: Reply)
      modifies this
      ensures Handled(State(), reply) == Handle(old(State()), OperationNamed(name), args, outcome, signatureLocations, tipModes)
    {
      var op := OperationNamed(name);
      if op.Initialize? {
        reply := InitializeConnector(args, outcome);
      } else if op.Disconnect? {
        reply := DisconnectConnector(outcome);
      } else if op.ConfirmPayment? {
        reply := ConfirmPendingPayment(outcome);
      } else if op.RejectPayment? {
        reply := RejectPendingPayment(outcome);
      } else if op.Unknown? {
        reply := NotImplemented;
      } else {
        reply := Send(op, CallOf(op, args, signatureLocations, tipModes), outcome);
      }
    }

    /** `initialize`; `creation` is how the connector's constructor ends. */
    method InitializeConnector(args: Payload, creation: V.VendorOutcome) returns (reply: Reply)
      modifies this
      ensures Handled(State(), reply) == InitializeStep(old(State()), args, creation)
    {
      var connection := ConnectionOf(args);
      if connection.Failure? {
        return Error("INIT_ERROR", if connection.error.Mistyped? then BadArgument(connection.error.cast) else InvalidAccount);
      }
      account := connection.value.account;
      if creation.Throws? {
        return Error("INIT_ERROR", Message(creation.message));
      }
      paymentConnector := Some(V.Connector(account, connection.value.remoteApplicationId));
      var response := Confirmation("SDK inicializado correctamente");
      events := events + [ChannelEvent("onInitialized", response)];
      reply := Ok(response);
    }

    /** `disconnect`; `disposal` is how the connector's `dispose` ends. */
    method DisconnectConnector(disposal: V.VendorOutcome) returns (reply: Reply)
      modifies this
      ensures Handled(State(), reply) == DisconnectStep(old(State()), disposal)
    {
      if paymentConnector.Some? {
        calls := calls + [V.Dispose];
      }
      if paymentConnector.Some? && disposal.Throws? {
        return Error("DISCONNECT_ERROR", Message(disposal.message));
      }
      paymentConnector := None;
      reply := Ok(Confirmation("Desconectado correctamente"));
    }

    /** The tail shared by every request operation: `paymentConnector?.call(request) ?: NOT_CONNECTED`. */
    method Send(op: Operation, call: Result<V.ConnectorCall, CastFailure>, outcome: V.VendorOutcome) returns (reply: Reply)
      requires op.IsRequest()
      modifies this
      ensures Handled(State(), reply) == SendStep(old(State()), op, call, outcome)
    {
      if call.Failure? {
        return Error("ERROR", BadArgument(call.error));
      }
      if paymentConnector.None? {
        return NotConnected;
      }
      calls := calls + [call.value];
      if outcome.Throws? {
        return Error("ERROR", Message(outcome.message));
      }
      reply := Ok(Confirmation(SentMessage(op)));
    }

    /** `confirmPayment`. */
    method ConfirmPendingPayment(outcome: V.VendorOutcome) returns (reply: Reply)
      modifies this
      ensures Handled(State(), reply) == ConfirmStep(old(State()), outcome)
    {
      if pendingPaymentForRejection.None? {
        return NothingToConfirm;
      }
      if paymentConnector.None? {
        return NotConnected;
      }
      calls := calls + [V.AcceptPayment(pendingPaymentForRejection.value)];
      if outcome.Throws? {
        return Error("ERROR", Message(outcome.message));
      }
      reply := Ok(Confirmation("Pago confirmado"));
      pendingPaymentForRejection := None;
      pendingChallengeForRejection := None;
    }

    /** `rejectPayment`. */
    method RejectPendingPayment(outcome: V.VendorOutcome) returns (reply: Reply)
      modifies this
      ensures Handled(State(), reply) == RejectStep(old(State()), outcome)
    {
      if pendingPaymentForRejection.None? || pendingChallengeForRejection.None? {
        return NothingToReject;
      }
      if paymentConnector.None? {
        return NotConnected;
      }
      calls := calls + [V.RejectPayment(pendingPaymentForRejection.value, pendingChallengeForRejection.value)];
      if outcome.Throws? {
        return Error("REJECT_ERROR", Message(outcome.message));
      }
      reply := Ok(Confirmation("Pago rechazado"));
      pendingPaymentForRejection := None;
      pendingChallengeForRejection := None;
    }

    /** `onConfirmPaymentRequest`. */
    method OnConfirmPaymentRequest(request: V.ConfirmPaymentRequest)
      modifies this
      ensures State() == ConfirmationRequestStep(old(State()), request)
    {
      pendingPaymentForRejection := request.payment;
      pendingChallengeForRejection := None;
      if request.challenges.Some? && |request.challenges.value| > 0 {
        pendingChallengeForRejection := Some(request.challenges.value[0]);
      }
    }

    /** `onDetachedFromEngine`; `threw` is a throwing `dispose`, which leaves the connector in place. */
    method OnDetachedFromEngine(disposal: V.VendorOutcome) returns (threw: bool)
      modifies this
      ensures threw <==> old(paymentConnector).Some? && disposal.Throws?
      ensures State() == DetachStep(old(State()), disposal)
    {
      if paymentConnector.Some? {
        calls := calls + [V.Dispose];
        if disposal.Throws? {
          return true;
        }
      }
      paymentConnector := None;
      threw := false;
    }
  }
}
