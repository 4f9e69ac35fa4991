/**
 * The ticket descriptions the print service lays out. Monetary amounts are Kotlin `Double`s;
 * they only ever reach the currency formatter, so they are modelled as reals.
 */
module PrintTicketModels {
  import opened KotlinTypes

  const DefaultDisclaimer := "COMPROBANTE NO FISCAL, NO VALIDO COMO FACTURA."

  /** A modifier or extra chosen for an item. */
  datatype TicketSubselection = TicketSubselection(name: string, quantity: Int32, price: real, total: real)

  /** One line of the order, with an optional note and optional sub-selections. */
  datatype TicketItem = TicketItem(
    quantity: Int32,
    description: string,
    subtotal: real,
    total: real,
    comment: Option<string> := None,
    subselections: Option<seq<TicketSubselection>> := None)

  /** The seller's fiscal identity and the tax authority's authorisation of the receipt. */
  datatype FiscalInfo = FiscalInfo(
    razonSocial: string,
    cuit: string,
    direccion: string,
    localidad: string,
    numeroInscripcionIIBB: string,
    responsable: string,
    inicioActividades: string,
    fecha: string,
    numeroT: string,
    puntoVenta: string,
    consumidorFinal: bool := true,
    regimenFiscal: Option<string> := None,
    ivaContenido: Option<real> := None,
    otrosImpuestosNacionales: Option<real> := None,
    cae: Option<string> := None,
    fechaVencimiento: Option<string> := None,
    qrCodeData: Option<string> := None)

  /** An informational (non-fiscal) order ticket. */
  datatype NonFiscalTicket = NonFiscalTicket(
    orderNumber: string,
    items: seq<TicketItem>,
    total: real,
    dateTime: string,
    isTakeAway: Option<bool> := None,
    identifier: Option<string> := None,
    disclaimer: Option<string> := Some(DefaultDisclaimer))

  /** A fiscal receipt: the order plus the seller's fiscal information, both required. */
  datatype FiscalTicket = FiscalTicket(
    orderNumber: Option<string> := None,
    items: seq<TicketItem>,
    total: real,
    dateTime: string,
    fiscalInfo: FiscalInfo,
    tipoComprobante: Option<string> := None)

  /** A request to print one of the two kinds of ticket. */
  datatype PrintTicketRequest = PrintTicketRequest(
    nonFiscalTicket: Option<NonFiscalTicket> := None,
    fiscalTicket: Option<FiscalTicket> := None)

  /** The outcome of a print job. Only `success` is required. */
  datatype PrintTicketResponse = PrintTicketResponse(
    success: bool,
    message: Option<string> := None,
    error: Option<string> := None)

  /** An item given only its required fields has no comment and no sub-selections. */
  lemma TicketItemDefaults(quantity: Int32, description: string, subtotal: real, total: real)
    ensures var item := TicketItem(quantity, description, subtotal, total);
      item.comment == None && item.subselections == None
  {
  }

  /** Fiscal information given only its required fields is for a final consumer and has no optional part. */
  lemma FiscalInfoDefaults(razonSocial: string, cuit: string, direccion: string, localidad: string,
                           iibb: string, responsable: string, inicio: string, fecha: string,
                           numeroT: string, puntoVenta: string)
    ensures var info := FiscalInfo(razonSocial, cuit, direccion, localidad, iibb, responsable, inicio, fecha, numeroT, puntoVenta);
      && info.consumidorFinal
      && info.regimenFiscal == None && info.ivaContenido == None && info.otrosImpuestosNacionales == None
      && info.cae == None && info.fechaVencimiento == None && info.qrCodeData == None
  {
  }

  /** A non-fiscal ticket given only its required fields has no take-away preference, no identifier and the stock disclaimer. */
  lemma NonFiscalTicketDefaults(orderNumber: string, items: seq<TicketItem>, total: real, dateTime: string)
    ensures var t := NonFiscalTicket(orderNumber, items, total, dateTime);
      t.isTakeAway == None && t.identifier == None
      && t.disclaimer == Some("COMPROBANTE NO FISCAL, NO VALIDO COMO FACTURA.")
  {
  }

  /** A fiscal ticket given only its items, total, date and fiscal information has no order number and no receipt type. */
  lemma FiscalTicketDefaults(items: seq<TicketItem>, total: real, dateTime: string, info: FiscalInfo)
    ensures var t := FiscalTicket(items := items, total := total, dateTime := dateTime, fiscalInfo := info);
      t.orderNumber == None && t.tipoComprobante == None && t.items == items && t.fiscalInfo == info
  {
  }

  /** A print response given only `success` has no message and no error. */
  lemma PrintTicketResponseDefaults(success: bool)
    ensures var r := PrintTicketResponse(success); r.message == None && r.error == None
  {
  }
}
