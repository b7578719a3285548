/** Invoice creation for one picking: the header builder (`_prepare_invoice`) and the
    invoice materializer (`action_create_invoice`), which turns the not-invoiced map
    into one invoice line per sale line still to invoice. */
module InvoiceCreation {
  import opened Records
  import opened Outstanding

  datatype InvoiceKind = OutInvoice

  /** The header fields of a new invoice that the model keeps. */
  datatype InvoiceHeader = InvoiceHeader(
    name: string,
    origin: string,
    kind: InvoiceKind,
    pickingInvoice: bool,
    partner: Id,
    shippingPartner: Id,
    globalDiscounts: seq<Id>,
    currency: Id,
    comment: string,
    paymentTerm: Id,
    fiscalPosition: Id,
    company: Id)

  /** An invoice line, with the back-reference to the sale line it invoices. */
  datatype InvoiceLine = InvoiceLine(
    saleLine: Id,
    product: Id,
    priceUnit: real,
    discount: real,
    taxes: seq<Id>,
    quantity: real,
    cwQuantity: real,
    uom: Id,
    cwUom: Id)

  /** A newly created (draft) invoice with its lines. */
  datatype NewInvoice = NewInvoice(header: InvoiceHeader, lines: seq<InvoiceLine>)

  /** The result of `action_create_invoice`: the `IndexError` raised when the argument
      is an empty list, `None` when nothing is to be invoiced, or the new invoice. */
  datatype CreateOutcome = IndexError | NothingToInvoice | Created(invoice: NewInvoice)

  /** The not-invoiced argument: normally a map, sometimes wrapped in a list. */
  datatype NotInvoicedArg = AsMap(m: map<Id, real>) | AsList(items: seq<map<Id, real>>)

  /** The global-discount list of the header: the order's own list when it is
      non-empty, the customer's default list otherwise. */
  function GlobalDiscounts(order: SaleOrder): (r: seq<Id>)
    ensures order.globalDiscounts != [] ==> r == order.globalDiscounts
    ensures order.globalDiscounts == [] ==> r == order.customerGlobalDiscounts
    ensures r == [] <==> order.globalDiscounts == [] && order.customerGlobalDiscounts == []
  {
    var customerDefault := order.customerGlobalDiscounts;
    if |order.globalDiscounts| > 0 then order.globalDiscounts else customerDefault
  }

  /** `_prepare_invoice`: the header of the invoice for picking `p`, built from its sale
      order and company. `userCurrency` is the currency of the current user's company,
      the fallback when the order's pricelist has none. */
  function PrepareInvoice(p: Picking, userCurrency: Id): (h: InvoiceHeader)
    ensures h.kind == OutInvoice && h.pickingInvoice
    ensures h.name == p.sale.clientOrderRef && h.paymentTerm == p.sale.paymentTerm
    ensures h.origin == p.sale.name && h.company == p.company && h.comment == p.note
    ensures h.partner == p.sale.invoicePartner && h.shippingPartner == p.sale.shippingPartner
    ensures h.globalDiscounts == GlobalDiscounts(p.sale)
    ensures h.currency == (if p.sale.pricelistCurrency != 0 then p.sale.pricelistCurrency else userCurrency)
    ensures h.fiscalPosition ==
              (if p.sale.fiscalPosition != 0 then p.sale.fiscalPosition else p.sale.customerFiscalPosition)
  {
    var o := p.sale;
    InvoiceHeader(
      name := o.clientOrderRef,
      origin := o.name,
      kind := OutInvoice,
      pickingInvoice := true,
      partner := o.invoicePartner,
      shippingPartner := o.shippingPartner,
      globalDiscounts := GlobalDiscounts(o),
      currency := if o.pricelistCurrency != 0 then o.pricelistCurrency else userCurrency,
      comment := p.note,
      paymentTerm := o.paymentTerm,
      fiscalPosition := if o.fiscalPosition != 0 then o.fiscalPosition else o.customerFiscalPosition,
      company := p.company)
  }

  /** The defensive unwrap: a list yields its first element, an empty list raises
      (`None` here); a map is taken as it is. */
  function Unwrap(arg: NotInvoicedArg): (r: Option<map<Id, real>>)
    ensures arg.AsMap? ==> r == Some(arg.m)
    ensures arg.AsList? ==> (r.None? <==> arg.items == [])
    ensures arg.AsList? && arg.items != [] ==> r == Some(arg.items[0])
  {
    match arg
    case AsMap(m) => Some(m)
    case AsList(items) => if |items| == 0 then None else Some(items[0])
  }

  /** The sale lines of the order with the given product, in order (the search at the
      start of each move line's scan). */
  function LinesOfProduct(lines: seq<SaleLine>, product: Id): (r: seq<SaleLine>)
    ensures forall s :: s in r <==> s in lines && s.product == product
  {
    if lines == [] then []
    else (if lines[0].product == product then [lines[0]] else []) + LinesOfProduct(lines[1..], product)
  }

  /** The invoice line created for sale line `s`, which the map lists with `q` still to
      invoice, found through move line `mv`. A non-CW product invoices `q` in the
      standard unit and nothing in the secondary one; a CW product invoices `q` in the
      secondary unit and delivered minus invoiced in the standard one. */
  function LineFor(s: SaleLine, mv: MoveLine, q: real): (l: InvoiceLine)
    ensures l.saleLine == s.id && l.product == mv.product
    ensures !s.isCw ==> l.quantity == q && l.cwQuantity == 0.0
    ensures s.isCw ==> l.cwQuantity == q && l.quantity == s.qtyDelivered - s.qtyInvoiced
  {
    InvoiceLine(
      saleLine := s.id,
      product := mv.product,
      priceUnit := s.priceUnit,
      discount := s.discount,
      taxes := s.taxes,
      quantity := if !s.isCw then q else s.qtyDelivered - s.qtyInvoiced,
      cwQuantity := if s.isCw then q else 0.0,
      uom := mv.uom,
      cwUom := mv.cwUom)
  }

  /** On the robot's own map (the calculator run on the order's lines, whose ids are
      distinct), the line created for a sale line still to invoice carries a positive
      quantity in the product's unit: delivered minus invoiced in the standard unit and
      nothing in the secondary unit for a non-CW product; delivered minus invoiced in
      the secondary unit, and the standard-unit difference beside it, for a CW product. */
  lemma InvoicedQuantities(lines: seq<SaleLine>, s: SaleLine, mv: MoveLine)
    requires UniqueIds(lines) && s in lines && ToInvoice(s, NotInvoiced(lines))
    ensures var l := LineFor(s, mv, NotInvoiced(lines)[s.id]);
            && (!s.isCw ==> l.quantity == s.qtyDelivered - s.qtyInvoiced > 0.0 && l.cwQuantity == 0.0)
            && (s.isCw ==> l.cwQuantity == s.cwQtyDelivered - s.cwQtyInvoiced > 0.0
                           && l.quantity == s.qtyDelivered - s.qtyInvoiced)
  {
    var i :| 0 <= i < |lines| && lines[i] == s;
    NotInvoicedEntry(lines, i);
  }

  /** A sale line still to invoice according to `m`. */
  predicate ToInvoice(s: SaleLine, m: map<Id, real>) {
    s.id in m && m[s.id] > 0.0
  }

  /** No two invoice lines invoice the same sale line. */
  predicate DistinctSaleLines(ls: seq<InvoiceLine>) {
    forall i, j :: 0 <= i < j < |ls| ==> ls[i].saleLine != ls[j].saleLine
  }

  /** Every invoice line comes from a sale line of the order that is to be invoiced and
      whose product one of the move lines carries. */
  predicate FromMatchingLines(ls: seq<InvoiceLine>, lines: seq<SaleLine>, moves: seq<MoveLine>,
                              m: map<Id, real>)
  {
    forall i :: 0 <= i < |ls| ==>
      exists s, mv :: s in lines && mv in moves && s.product == mv.product && ToInvoice(s, m)
                      && ls[i] == LineFor(s, mv, m[s.id])
  }

  /** Every sale line of the order that is to be invoiced and whose product one of the
      move lines carries is invoiced by some invoice line. */
  predicate CoversMatchingLines(ls: seq<InvoiceLine>, lines: seq<SaleLine>, moves: seq<MoveLine>,
                                m: map<Id, real>)
  {
    forall s, mv :: s in lines && mv in moves && s.product == mv.product && ToInvoice(s, m) ==>
      exists i :: 0 <= i < |ls| && ls[i].saleLine == s.id
  }

  /** The sale lines the invoice lines `ls` invoice (the `done_slines` set). */
  function SaleLineIds(ls: seq<InvoiceLine>): set<Id> {
    set l | l in ls :: l.saleLine
  }

  /** Appending the line for a sale line not yet done keeps the selection's three
      invariants. */
  lemma AppendLine(prev: seq<InvoiceLine>, done: set<Id>, s: SaleLine, mv: MoveLine,
                   lines: seq<SaleLine>, moves: seq<MoveLine>, m: map<Id, real>)
    requires s in lines && mv in moves && s.product == mv.product && ToInvoice(s, m) && s.id !in done
    requires done == SaleLineIds(prev) && DistinctSaleLines(prev) && FromMatchingLines(prev, lines, moves, m)
    ensures var ls := prev + [LineFor(s, mv, m[s.id])];
            SaleLineIds(ls) == done + {s.id} && DistinctSaleLines(ls) && FromMatchingLines(ls, lines, moves, m)
  {
    var l := LineFor(s, mv, m[s.id]);
    var ls := prev + [l];
    assert SaleLineIds(ls) == done + {s.id} by {
      assert forall x :: x in ls <==> x in prev || x == l;
    }
    assert DistinctSaleLines(ls) by {
      forall i, j | 0 <= i < j < |ls| ensures ls[i].saleLine != ls[j].saleLine {
        assert ls[i] == prev[i];
        if j < |prev| {
          assert ls[j] == prev[j];
        } else {
          assert prev[i] in prev;
        }
      }
    }
    assert FromMatchingLines(ls, lines, moves, m) by {
      forall i | 0 <= i < |ls|
        ensures exists s', mv' :: s' in lines && mv' in moves && s'.product == mv'.product && ToInvoice(s', m)
                                  && ls[i] == LineFor(s', mv', m[s'.id])
      {
        if i < |prev| {
          assert ls[i] == prev[i];
        } else {
          assert ls[i] == LineFor(s, mv, m[s.id]);
        }
      }
    }
  }

  /** The scan of the order lines found for one move line `mv`: appends a line for each
      candidate still to invoice and not yet done, and adds it to `done`. */
  method ScanCandidates(mv: MoveLine, candidates: seq<SaleLine>, m: map<Id, real>,
                        ghost lines: seq<SaleLine>, ghost moves: seq<MoveLine>,
                        ls0: seq<InvoiceLine>, done0: set<Id>)
    returns (ls: seq<InvoiceLine>, done: set<Id>)
    requires mv in moves
    requires forall s :: s in candidates ==> s in lines && s.product == mv.product
    requires done0 == SaleLineIds(ls0) && DistinctSaleLines(ls0) && FromMatchingLines(ls0, lines, moves, m)
    ensures done == SaleLineIds(ls) && DistinctSaleLines(ls) && FromMatchingLines(ls, lines, moves, m)
    ensures done0 <= done
    ensures forall s :: s in candidates && ToInvoice(s, m) ==> s.id in done
  {
    ls, done := ls0, done0;
    var j := 0;
    while j < |candidates|
      invariant 0 <= j <= |candidates|
      invariant done == SaleLineIds(ls) && DistinctSaleLines(ls) && FromMatchingLines(ls, lines, moves, m)
      invariant done0 <= done
      invariant forall k :: 0 <= k < j && ToInvoice(candidates[k], m) ==> candidates[k].id in done
    {
      var s := candidates[j];
      if s.id in m && m[s.id] > 0.0 && s.id !in done {
        AppendLine(ls, done, s, mv, lines, moves, m);
        ls := ls + [LineFor(s, mv, m[s.id])];
        done := done + {s.id};
      }
      j := j + 1;
    }
  }

  /** The line-selection loop of `action_create_invoice`: scans the move lines, and for
      each the order lines with its product, emitting a line for each sale line still
      to invoice and not yet done in this call. */
  method CreateInvoiceLines(moves: seq<MoveLine>, lines: seq<SaleLine>, m: map<Id, real>)
    returns (ls: seq<InvoiceLine>)
    ensures DistinctSaleLines(ls)
    ensures FromMatchingLines(ls, lines, moves, m)
    ensures CoversMatchingLines(ls, lines, moves, m)
  {
    ls := [];
    var done: set<Id> := {};
    var i := 0;
    while i < |moves|
      invariant 0 <= i <= |moves|
      invariant done == SaleLineIds(ls) && DistinctSaleLines(ls) && FromMatchingLines(ls, lines, moves, m)
      invariant forall s, mv :: s in lines && mv in moves[..i] && s.product == mv.product && ToInvoice(s, m) ==>
                  s.id in done
    {
      var mv := moves[i];
      var candidates := LinesOfProduct(lines, mv.product);
      ghost var done0 := done;
      ls, done := ScanCandidates(mv, candidates, m, lines, moves, ls, done);
      forall s, mv' | s in lines && mv' in moves[..i + 1] && s.product == mv'.product && ToInvoice(s, m)
        ensures s.id in done
      {
        if mv' !in moves[..i] {
          assert mv' == mv;
          assert s in candidates;
        } else {
          assert s.id in done0;
        }
      }
      i := i + 1;
    }
    assert moves[..i] == moves;
  }

  /** `action_create_invoice` for picking `p`: unwraps the argument, returns without an
      invoice when the map is empty, and otherwise creates the invoice header and the
      invoice lines. */
  method ActionCreateInvoice(p: Picking, arg: NotInvoicedArg, userCurrency: Id)
    returns (r: CreateOutcome)
    ensures r.IndexError? <==> arg.AsList? && arg.items == []
    ensures r.NothingToInvoice? <==> Unwrap(arg) == Some(map[])
    ensures r.Created? ==> r.invoice.header == PrepareInvoice(p, userCurrency)
    ensures r.Created? ==>
              var m := Unwrap(arg).value;
              && DistinctSaleLines(r.invoice.lines)
              && FromMatchingLines(r.invoice.lines, OrderLines(p), p.moveLines, m)
              && CoversMatchingLines(r.invoice.lines, OrderLines(p), p.moveLines, m)
  {
    var notInvoiced: map<Id, real>;
    match arg {
      case AsMap(m) =>
        notInvoiced := m;
      case AsList(items) =>
        if |items| == 0 {
          return IndexError;
        }
        notInvoiced := items[0];
    }
    if |notInvoiced| == 0 {
      assert notInvoiced == map[];
      return NothingToInvoice;
    }
    var header := PrepareInvoice(p, userCurrency);
    var ls := CreateInvoiceLines(p.moveLines, OrderLines(p), notInvoiced);
    r := Created(NewInvoice(header, ls));
  }
}
