/**
 * The payment service: a payment connector that is present once initialised, one slot for the
 * sale-response callback (each payment overwrites it), one slot each for the device connected and
 * disconnected callbacks, and an idempotent `dispose`.
 *
 * Callbacks are known by an identity; running one appends an `Invocation` to a log. Calls made on
 * the connector are appended to another log, and whether the connector's `sale` throws is an
 * input (`CloverVendor.VendorOutcome`). The account lookup is an input too.
 */
module PaymentService {
  import opened KotlinTypes
  import opened PaymentModels
  import CloverVendor
  import PaymentMapper

  /** The identity of a callback (a Kotlin lambda) handed to the service. */
  type Callback = nat

  /** One run of a callback, with what it was given. */
  datatype Invocation =
    | SaleCallback(callback: Callback, response: PaymentResponse)
    | ConnectedCallback(callback: Callback)
    | DisconnectedCallback(callback: Callback)

  /** The service's fields, with the two logs. */
  datatype ServiceState = ServiceState(
    connector: Option<CloverVendor.Connector>,
    saleCallback: Option<Callback>,
    connectedCallback: Option<Callback>,
    disconnectedCallback: Option<Callback>,
    invoked: seq<Invocation>,
    calls: seq<CloverVendor.ConnectorCall>)

  /** The answer given to a payment while there is no connector. */
  const NotInitialized := PaymentResponse(false, reason := Some("NOT_INITIALIZED"), message := Some("El PaymentConnector no est\U{E1} inicializado"))

  /** The answer given when the connector's `sale` throws, with the exception's message. */
  function SaleFailed(message: Option<string>): (r: PaymentResponse)
    ensures !r.success && r.reason == Some("EXCEPTION") && r.message == message
    ensures r.result.None? && r.payment.None?
  {
    PaymentResponse(false, reason := Some("EXCEPTION"), message := message)
  }

  /**
   * The vendor sale request built for a payment: the request's amount and external id, a
   * `PAYMENT` transaction, every `disable*` flag on, and no tip.
   */
  function SaleRequestFor(request: PaymentRequest): (r: CloverVendor.SaleRequest)
    ensures r.amount == Some(request.amount) && r.externalId == Some(request.externalId)
    ensures r.transactionType == Some(CloverVendor.EnumConstant("PAYMENT"))
    ensures r.disablePrinting == Some(true) && r.disableReceiptSelection == Some(true)
    ensures r.disableCashback == Some(true) && r.disableDuplicateChecking == Some(true)
    ensures r.disableRestartTransactionOnFail == Some(true)
    ensures r.tipMode == Some(CloverVendor.EnumConstant("NO_TIP"))
    ensures r.tipAmount.None? && r.taxAmount.None? && r.tippableAmount.None? && r.orderId.None? && r.vaultedCard.None?
    ensures r.signatureEntryLocation.None? && r.signatureThreshold.None? && r.cardEntryMethods.None?
    ensures r.allowOfflinePayment.None? && r.approveOfflinePaymentWithoutPrompt.None?
  {
    CloverVendor.SaleRequest(
      externalId := Some(request.externalId),
      amount := Some(request.amount),
      transactionType := Some(CloverVendor.EnumConstant("PAYMENT")),
      disablePrinting := Some(true),
      disableReceiptSelection := Some(true),
      disableCashback := Some(true),
      disableDuplicateChecking := Some(true),
      disableRestartTransactionOnFail := Some(true),
      tipMode := Some(CloverVendor.EnumConstant("NO_TIP")))
  }

  /**
   * `initialize`: with an account and a constructor that completes, a connector for that account
   * and the service's application id; without an account, or when the constructor throws, the
   * exception is rethrown and nothing changes.
   */
  function InitializeStep(s: ServiceState, account: Option<CloverVendor.Account>, remoteApplicationId: string,
                          creation: CloverVendor.VendorOutcome): (r: ServiceState)
    ensures account.None? || creation.Throws? ==> r == s
    ensures account.Some? && creation.Completes? ==>
      r == s.(connector := Some(CloverVendor.Connector(account, Some(remoteApplicationId))))
  {
    if account.None? || creation.Throws? then s
    else s.(connector := Some(CloverVendor.Connector(account, Some(remoteApplicationId))))
  }

  /**
   * `processPayment`: without a connector the callback is answered `NOT_INITIALIZED` and not
   * stored; with one, the callback replaces the stored one, the sale is sent, and a throwing
   * sale is answered `EXCEPTION` at once.
   */
  function ProcessPaymentStep(s: ServiceState, request: PaymentRequest, callback: Callback, outcome: CloverVendor.VendorOutcome): ServiceState {
    if s.connector.None? then
      s.(invoked := s.invoked + [SaleCallback(callback, NotInitialized)])
    else
      var sent := s.(saleCallback := Some(callback), calls := s.calls + [CloverVendor.Sale(SaleRequestFor(request))]);
      match outcome
      case Completes => sent
      case Throws(message) => sent.(invoked := s.invoked + [SaleCallback(callback, SaleFailed(message))])
  }

  /**
   * `dispose`: the connector, if any, is disposed; `disposal` is how that call ends. When it
   * throws, the exception leaves `dispose` before any field is cleared; otherwise there is no
   * connector and no callback afterwards. The callback log is kept either way.
   */
  function DisposeStep(s: ServiceState, disposal: CloverVendor.VendorOutcome): (r: ServiceState)
    ensures r.invoked == s.invoked
    ensures r.calls == s.calls + (if s.connector.Some? then [CloverVendor.Dispose] else [])
    ensures s.connector.Some? && disposal.Throws? ==> r == s.(calls := r.calls)
    ensures s.connector.None? || disposal.Completes? ==>
      r.connector.None? && r.saleCallback.None? && r.connectedCallback.None? && r.disconnectedCallback.None?
  {
    if s.connector.None? then
      s.(saleCallback := None, connectedCallback := None, disconnectedCallback := None)
    else
      var disposed := s.(calls := s.calls + [CloverVendor.Dispose]);
      if disposal.Throws? then disposed
      else disposed.(connector := None, saleCallback := None, connectedCallback := None, disconnectedCallback := None)
  }

  /** `onSaleResponse`: the mapped response goes to the stored sale callback, if any. */
  function SaleResponseStep(s: ServiceState, response: CloverVendor.SaleResponse): ServiceState {
    match s.saleCallback
    case None => s
    case Some(callback) => s.(invoked := s.invoked + [SaleCallback(callback, PaymentMapper.ToPaymentResponse(response))])
  }

  /** `onDeviceConnected`: runs the stored connected callback, if any. */
  function DeviceConnectedStep(s: ServiceState): ServiceState {
    match s.connectedCallback
    case None => s
    case Some(callback) => s.(invoked := s.invoked + [ConnectedCallback(callback)])
  }

  /** `onDeviceDisconnected`: runs the stored disconnected callback, if any. */
  function DeviceDisconnectedStep(s: ServiceState): ServiceState {
    match s.disconnectedCallback
    case None => s
    case Some(callback) => s.(invoked := s.invoked + [DisconnectedCallback(callback)])
  }

  /** Without a connector, a payment is answered once with `NOT_INITIALIZED`, and nothing else changes. */
  lemma NoConnectorAnswersOnce(s: ServiceState, request: PaymentRequest, callback: Callback, outcome: CloverVendor.VendorOutcome)
    requires s.connector.None?
    ensures var r := ProcessPaymentStep(s, request, callback, outcome);
      && r.invoked == s.invoked + [SaleCallback(callback, NotInitialized)]
      && r.saleCallback == s.saleCallback && r.calls == s.calls && r.connector == s.connector
      && !NotInitialized.success && NotInitialized.reason == Some("NOT_INITIALIZED")
  {
  }

  /**
   * With a connector, the sale built from the request is sent and the callback takes the slot;
   * it is answered at once only when the sale throws.
   */
  lemma ConnectedPaymentIsSent(s: ServiceState, request: PaymentRequest, callback: Callback, outcome: CloverVendor.VendorOutcome)
    requires s.connector.Some?
    ensures var r := ProcessPaymentStep(s, request, callback, outcome);
      && r.saleCallback == Some(callback)
      && r.calls == s.calls + [CloverVendor.Sale(SaleRequestFor(request))]
      && r.connector == s.connector
      && (outcome.Completes? ==> r.invoked == s.invoked)
      && (outcome.Throws? ==> r.invoked == s.invoked + [SaleCallback(callback, SaleFailed(outcome.message))])
  {
  }

  /**
   * The slot holds one callback: after two payments, the terminal's answer goes only to the
   * second payment's callback.
   */
  lemma SaleResponseGoesToLatest(s: ServiceState, first: PaymentRequest, second: PaymentRequest, cb1: Callback, cb2: Callback,
                                 response: CloverVendor.SaleResponse)
    requires s.connector.Some?
    ensures var paid := ProcessPaymentStep(ProcessPaymentStep(s, first, cb1, CloverVendor.Completes), second, cb2, CloverVendor.Completes);
      SaleResponseStep(paid, response).invoked == s.invoked + [SaleCallback(cb2, PaymentMapper.ToPaymentResponse(response))]
  {
  }

  /**
   * `dispose` is idempotent: once a dispose has left no connector, a second one, however the
   * vendor would end it, changes nothing.
   */
  lemma {:induction false} DisposeIdempotent(s: ServiceState, first: CloverVendor.VendorOutcome, second: CloverVendor.VendorOutcome)
    requires DisposeStep(s, first).connector.None?
    ensures DisposeStep(DisposeStep(s, first), second) == DisposeStep(s, first)
  {
  }

  /** A throwing vendor `dispose` leaves the service connected with its callbacks, logging only the call. */
  lemma FailedDisposeKeepsConnector(s: ServiceState, message: Option<string>)
    requires s.connector.Some?
    ensures var r := DisposeStep(s, CloverVendor.Throws(message));
      && r.connector == s.connector && r.saleCallback == s.saleCallback
      && r.connectedCallback == s.connectedCallback && r.disconnectedCallback == s.disconnectedCallback
      && r.calls == s.calls + [CloverVendor.Dispose]
  {
  }

  /**
   * After `dispose`, events reach nobody and a payment is answered `NOT_INITIALIZED` without
   * touching the connector log.
   */
  lemma DisposedServiceIsInert(s: ServiceState, request: PaymentRequest, callback: Callback, outcome: CloverVendor.VendorOutcome,
                               response: CloverVendor.SaleResponse)
    ensures var d := DisposeStep(s, CloverVendor.Completes);
      && SaleResponseStep(d, response) == d
      && DeviceConnectedStep(d) == d
      && DeviceDisconnectedStep(d) == d
      && ProcessPaymentStep(d, request, callback, outcome).invoked == s.invoked + [SaleCallback(callback, NotInitialized)]
      && ProcessPaymentStep(d, request, callback, outcome).calls == d.calls
  {
  }

  class PaymentService {
    const remoteApplicationId: string
    var paymentConnector: Option<CloverVendor.Connector>
    var onSaleResponseCallback: Option<Callback>
    var onDeviceConnectedCallback: Option<Callback>
    var onDeviceDisconnectedCallback: Option<Callback>
    /** The callbacks run so far, in order. */
    var invoked: seq<Invocation>
    /** The calls made on the connector so far, in order. */
    var calls: seq<CloverVendor.ConnectorCall>

    function State(): ServiceState
      reads this
    {
      ServiceState(paymentConnector, onSaleResponseCallback, onDeviceConnectedCallback, onDeviceDisconnectedCallback, invoked, calls)
    }

    constructor (remoteApplicationId: string)
      ensures this.remoteApplicationId == remoteApplicationId
      ensures State() == ServiceState(None, None, None, None, [], [])
    {
      this.remoteApplicationId := remoteApplicationId;
      paymentConnector := None;
      onSaleResponseCallback := None;
      onDeviceConnectedCallback := None;
      onDeviceDisconnectedCallback := None;
      invoked := [];
      calls := [];
    }

    /**
     * `initialize`; `account` is what the account lookup found and `creation` how the connector's
     * constructor ends. `ok` is false where the source rethrows.
     */
    method Initialize(account: Option<CloverVendor.Account>, creation: CloverVendor.VendorOutcome) returns (ok: bool)
      modifies this
      ensures ok <==> account.Some? && creation.Completes?
      ensures State() == InitializeStep(old(State()), account, remoteApplicationId, creation)
    {
      if account.None? || creation.Throws? {
        return false;
      }
      paymentConnector := Some(CloverVendor.Connector(account, Some(remoteApplicationId)));
      return true;
    }

    /** `processPayment`; `outcome` is whether the connector's `sale` throws. */
    method ProcessPayment(request: PaymentRequest, callback: Callback, outcome: CloverVendor.VendorOutcome)
      modifies this
      ensures State() == ProcessPaymentStep(old(State()), request, callback, outcome)
    {
      if paymentConnector.None? {
        invoked := invoked + [SaleCallback(callback, PaymentResponse(
          success := false,
          reason := Some("NOT_INITIALIZED"),
          message := Some("El PaymentConnector no est\U{E1} inicializado")))];
        return;
      }
      onSaleResponseCallback := Some(callback);
      var saleRequest := CloverVendor.SaleRequest(
        externalId := Some(request.externalId),
        amount := Some(request.amount),
        transactionType := Some(CloverVendor.EnumConstant("PAYMENT")),
        disablePrinting := Some(true),
        disableReceiptSelection := Some(true),
        disableCashback := Some(true),
        disableDuplicateChecking := Some(true),
        disableRestartTransactionOnFail := Some(true),
        tipMode := Some(CloverVendor.EnumConstant("NO_TIP")));
      calls := calls + [CloverVendor.Sale(saleRequest)];
      if outcome.Throws? {
        invoked := invoked + [SaleCallback(callback, PaymentResponse(success := false, reason := Some("EXCEPTION"), message := outcome.message))];
      }
    }

    /** `dispose`; `disposal` is how the connector's own `dispose` ends, and `ok` is false where it throws. */
    method Dispose(disposal: CloverVendor.VendorOutcome) returns (ok: bool)
      modifies this
      ensures ok <==> old(paymentConnector).None? || disposal.Completes?
      ensures State() == DisposeStep(old(State()), disposal)
    {
      if paymentConnector.Some? {
        calls := calls + [CloverVendor.Dispose];
        if disposal.Throws? {
          return false;
        }
      }
      paymentConnector := None;
      onSaleResponseCallback := None;
      onDeviceConnectedCallback := None;
      onDeviceDisconnectedCallback := None;
      return true;
    }

    /** `setOnDeviceConnectedCallback`: replaces the slot. */
    method SetOnDeviceConnectedCallback(callback: Callback)
      modifies this
      ensures State() == old(State()).(connectedCallback := Some(callback))
    {
      onDeviceConnectedCallback := Some(callback);
    }

    /** `setOnDeviceDisconnectedCallback`: replaces the slot. */
    method SetOnDeviceDisconnectedCallback(callback: Callback)
      modifies this
      ensures State() == old(State()).(disconnectedCallback := Some(callback))
    {
      onDeviceDisconnectedCallback := Some(callback);
    }

    /** `onDeviceConnected`. */
    method OnDeviceConnected()
      modifies this
      ensures State() == DeviceConnectedStep(old(State()))
    {
      if onDeviceConnectedCallback.Some? {
        invoked := invoked + [ConnectedCallback(onDeviceConnectedCallback.value)];
      }
    }

    /** `onDeviceDisconnected`. */
    method OnDeviceDisconnected()
      modifies this
      ensures State() == DeviceDisconnectedStep(old(State()))
    {
      if onDeviceDisconnectedCallback.Some? {
        invoked := invoked + [DisconnectedCallback(onDeviceDisconnectedCallback.value)];
      }
    }

    /** `onSaleResponse`. */
    method OnSaleResponse(response: CloverVendor.SaleResponse)
      modifies this
      ensures State() == SaleResponseStep(old(State()), response)
    {
      var paymentResponse := PaymentMapper.ToPaymentResponse(response);
      if onSaleResponseCallback.Some? {
        invoked := invoked + [SaleCallback(onSaleResponseCallback.value, paymentResponse)];
      }
    }
  }
}
