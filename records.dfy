/** The records the invoice robot reads, flags and creates: sale-order lines, stock
    move lines, sale orders, pickings (deliveries) and customer invoices.

    Record identifiers are natural numbers; the identifier 0 stands for an empty
    reference (an empty recordset, `False` or `None`), so that the source's
    `x.id or y` fallbacks read as `if x != 0 then x else y`. */
module Records {

  datatype Option<T> = None | Some(value: T)

  type Id = nat

  /** A sale-order line. `isCw` is the product's catch-weight class: such products
      are tracked in a secondary unit beside the standard one. */
  datatype SaleLine = SaleLine(
    id: Id,
    product: Id,
    isCw: bool,
    qtyDelivered: real,
    qtyInvoiced: real,
    cwQtyDelivered: real,
    cwQtyInvoiced: real,
    priceUnit: real,
    discount: real,
    taxes: seq<Id>)

  /** A stock move of a picking: the product moved, its unit and its catch-weight unit. */
  datatype MoveLine = MoveLine(product: Id, uom: Id, cwUom: Id)

  /** The sale order a picking comes from, with the fields the invoice header is built from. */
  datatype SaleOrder = SaleOrder(
    name: string,
    clientOrderRef: string,
    lines: seq<SaleLine>,
    invoicePartner: Id,
    shippingPartner: Id,
    globalDiscounts: seq<Id>,
    customerGlobalDiscounts: seq<Id>,
    pricelistCurrency: Id,
    fiscalPosition: Id,
    customerFiscalPosition: Id,
    paymentTerm: Id)

  datatype PickingState = Draft | Waiting | Confirmed | Assigned | Done | Cancel

  datatype PickingTypeCode = Incoming | Outgoing | Internal

  /** A delivery. Everything but the robot's `invoiceCreated` flag is fixed while the
      robot runs. */
  class Picking {
    const id: Id
    const company: Id
    const partner: Id
    const state: PickingState
    const typeCode: PickingTypeCode
    const scheduledDate: int
    const group: Id
    const sale: SaleOrder
    const moveLines: seq<MoveLine>
    const note: string
    var invoiceCreated: bool

    constructor (id: Id, company: Id, partner: Id, state: PickingState, typeCode: PickingTypeCode,
                 scheduledDate: int, group: Id, sale: SaleOrder, moveLines: seq<MoveLine>,
                 note: string, invoiceCreated: bool)
      ensures this.id == id && this.company == company && this.partner == partner
      ensures this.state == state && this.typeCode == typeCode && this.scheduledDate == scheduledDate
      ensures this.group == group && this.sale == sale && this.moveLines == moveLines
      ensures this.note == note && this.invoiceCreated == invoiceCreated
    {
      this.id, this.company, this.partner := id, company, partner;
      this.state, this.typeCode, this.scheduledDate := state, typeCode, scheduledDate;
      this.group, this.sale, this.moveLines := group, sale, moveLines;
      this.note, this.invoiceCreated := note, invoiceCreated;
    }
  }

  /** The lines of the sale order a picking comes from (`picking.sale_id.order_line`). */
  function OrderLines(p: Picking): seq<SaleLine> {
    p.sale.lines
  }

  datatype InvoiceState = InvoiceDraft | InvoiceOpen

  /** A chatter message posted on an invoice. The robot posts only one kind: the
      report that finalizing the invoice failed, naming its number and identifier. */
  datatype Message = FinalizeFailed(number: string, invoice: Id)

  /** An invoice already in the record store. `pickingInvoice` marks the invoices the
      robot generated. `preProcessSucceeds` is the outcome the external finalization
      hook has on this invoice: on success the invoice leaves the draft state, on
      failure the hook raises. */
  class Invoice {
    const id: Id
    const number: string
    const company: Id
    const pickingInvoice: bool
    const preProcessSucceeds: bool
    var state: InvoiceState
    var chatter: seq<Message>

    constructor (id: Id, number: string, company: Id, pickingInvoice: bool,
                 preProcessSucceeds: bool, state: InvoiceState)
      ensures this.id == id && this.number == number && this.company == company
      ensures this.pickingInvoice == pickingInvoice && this.preProcessSucceeds == preProcessSucceeds
      ensures this.state == state && this.chatter == []
    {
      this.id, this.number, this.company := id, number, company;
      this.pickingInvoice, this.preProcessSucceeds := pickingInvoice, preProcessSucceeds;
      this.state, this.chatter := state, [];
    }
  }
}
