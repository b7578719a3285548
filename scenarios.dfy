/** Client methods checked by the verifier: calls of the robot's operations on concrete
    records, showing what their contracts let a caller conclude. */
module Scenarios {
  import opened Records
  import opened Outstanding
  import opened InvoiceCreation
  import opened DraftRecovery
  import opened Robot

  /** A standard-unit sale line with 5 delivered and 2 invoiced at price 10, tax 7. */
  function StandardLine(delivered: real, invoiced: real): SaleLine {
    SaleLine(id := 11, product := 21, isCw := false, qtyDelivered := delivered, qtyInvoiced := invoiced,
             cwQtyDelivered := 0.0, cwQtyInvoiced := 0.0, priceUnit := 10.0, discount := 0.0, taxes := [7])
  }

  function OrderWith(lines: seq<SaleLine>): SaleOrder {
    SaleOrder("S001", "", lines, 30, 30, [], [], 0, 0, 0, 0)
  }

  /** A delivery of a line delivered 5 times and invoiced twice gets an invoice whose
      lines (at least one, no two for the same sale line) have quantity 3, price 10 and
      the line's tax. */
  method OneStandardLine() {
    var s := StandardLine(5.0, 2.0);
    var mv := MoveLine(21, 1, 0);
    var d := new Picking(1, 100, 30, Done, Outgoing, 10, 50, OrderWith([s]), [mv], "", false);
    var m := CheckInvoiceAlreadyCreated([d]);
    assert [d][..0] == [] && [s][..0] == [];
    assert m == map[11 := 3.0] && 11 in m;
    var r := ActionCreateInvoice(d, AsMap(m), 1);
    assert r.Created?;
    var ls := r.invoice.lines;
    assert OrderLines(d) == [s] && d.moveLines == [mv];
    OnlyLine(ls, s, mv, m);
    SomeLine(ls, s, mv, m);
    SingleLine(ls, s.id);
    assert |ls| == 1;
    assert forall i :: 0 <= i < |ls| ==> ls[i].quantity == 3.0 && ls[i].priceUnit == 10.0 && ls[i].taxes == [7];
  }

  /** With one sale line still to invoice and one move line of its product, every
      selected line is the one for that sale line ... */
  lemma OnlyLine(ls: seq<InvoiceLine>, s: SaleLine, mv: MoveLine, m: map<Id, real>)
    requires ToInvoice(s, m) && FromMatchingLines(ls, [s], [mv], m)
    ensures forall i :: 0 <= i < |ls| ==> ls[i] == LineFor(s, mv, m[s.id])
  {
    assert forall x :: x in [s] ==> x == s;
    assert forall x :: x in [mv] ==> x == mv;
  }

  /** ... and at least one line is selected. */
  lemma SomeLine(ls: seq<InvoiceLine>, s: SaleLine, mv: MoveLine, m: map<Id, real>)
    requires s.product == mv.product && ToInvoice(s, m) && CoversMatchingLines(ls, [s], [mv], m)
    ensures |ls| >= 1
  {
    assert s in [s] && mv in [mv];
  }

  /** The sale line of the `i`-th line, or 0 past the end. */
  function SaleLineAt(ls: seq<InvoiceLine>, i: int): Id {
    if 0 <= i < |ls| then ls[i].saleLine else 0
  }

  /** Lines that all invoice the sale line `id`, no two the same sale line: at most one. */
  lemma SingleLine(ls: seq<InvoiceLine>, id: Id)
    requires DistinctSaleLines(ls)
    requires forall i :: 0 <= i < |ls| ==> ls[i].saleLine == id
    ensures |ls| <= 1
  {
    ghost var first, second := SaleLineAt(ls, 0), SaleLineAt(ls, 1);
  }

  /** A catch-weight line with 8 delivered and 3 invoiced in the secondary unit is
      outstanding by 5, whatever its standard-unit quantities are. */
  method CatchWeightLine() {
    var s := SaleLine(id := 12, product := 22, isCw := true, qtyDelivered := 2.0, qtyInvoiced := 2.0,
                      cwQtyDelivered := 8.0, cwQtyInvoiced := 3.0, priceUnit := 4.0, discount := 0.0,
                      taxes := []);
    var d := new Picking(2, 100, 30, Done, Outgoing, 10, 50, OrderWith([s]), [], "", false);
    var m := CheckInvoiceAlreadyCreated([d]);
    assert [d][..0] == [] && [s][..0] == [];
    assert m == map[12 := 5.0];
  }

  /** When everything is invoiced the delivery gets no invoice, yet the run flags it
      as invoiced: the flag is set before the result is looked at. */
  method NothingOutstandingStillFlagged() {
    var s := StandardLine(5.0, 5.0);
    var d := new Picking(3, 100, 30, Done, Outgoing, 10, 50, OrderWith([s]), [MoveLine(21, 1, 0)], "", false);
    var c := Company(100, true);
    assert [s][..0] == [] && OrderLines(d) == [s];
    assert NotInvoiced([s]) == map[];
    assert !HasOutstanding(d);
    assert c in RobotCompanies([c]) && Candidate(d, 1, c.id);
    assert forall p :: p in [d] ==> p == d;
    var created := GenerateCheckInvoice(Some(1), [c], [d], [], 1);
    assert d.invoiceCreated;
    assert forall e :: e !in created;
  }

  /** A delivery without a procurement group or without a customer is never processed,
      and an unreadable start date stops the run before any delivery is looked at. */
  method SkippedDeliveries() {
    var s := StandardLine(5.0, 2.0);
    var d := new Picking(4, 100, 30, Done, Outgoing, 10, 0, OrderWith([s]), [MoveLine(21, 1, 0)], "", false);
    var e := new Picking(5, 100, 30, Done, Outgoing, 10, 50, OrderWith([s]), [MoveLine(21, 1, 0)], "", false);
    var f := new Picking(7, 100, 0, Done, Outgoing, 10, 50, OrderWith([s]), [MoveLine(21, 1, 0)], "", false);
    var c := Company(100, true);
    var created := GenerateCheckInvoice(None, [c], [d, e, f], [], 1);
    assert created == [] && !d.invoiceCreated && !e.invoiceCreated && !f.invoiceCreated;
    created := GenerateCheckInvoice(Some(1), [c], [d, e, f], [], 1);
    assert !d.invoiceCreated && !f.invoiceCreated;
    assert forall x :: x in created ==> x.picking == e;
  }

  /** The run first recovers the robot drafts of each robot company: a draft whose
      finalization succeeds is open afterwards; the draft of a company without the
      robot is left as it was. */
  method RunRecoversDrafts() {
    var a := new Invoice(8, "INV/008", 100, true, true, InvoiceDraft);
    var b := new Invoice(9, "INV/009", 200, true, true, InvoiceDraft);
    var c, o := Company(100, true), Company(200, false);
    assert [a, b][1..] == [b] && [b][1..] == [];
    assert RobotDrafts([], 100) == [] && RobotDrafts([b], 100) == [];
    assert RobotDrafts([a, b], 100) == [a];
    assert [c, o][1..] == [o] && [o][1..] == [];
    assert RobotCompanies([]) == [] && RobotCompanies([o]) == [];
    assert RobotCompanies([c, o]) == [c];
    assert CompanyIds([c]) == {100};
    assert Finalized([a]) == [a];
    var created := GenerateCheckInvoice(Some(1), [c, o], [], [a, b], 1);
    assert a.state == InvoiceOpen && a.chatter == [];
    assert b.state == InvoiceDraft && b.chatter == [];
  }

  /** An empty list in place of the map raises; an empty map yields no invoice; a map
      whose lines this delivery does not move still yields an invoice, without lines. */
  method UnwrapEdgeCases() {
    var s := StandardLine(5.0, 2.0);
    var d := new Picking(6, 100, 30, Done, Outgoing, 10, 50, OrderWith([s]), [], "", false);
    var r := ActionCreateInvoice(d, AsList([]), 1);
    assert r.IndexError?;
    r := ActionCreateInvoice(d, AsList([map[]]), 1);
    assert r.NothingToInvoice?;
    var m := map[11 := 3.0];
    assert 11 in m;
    r := ActionCreateInvoice(d, AsList([m, map[]]), 1);
    assert r.Created?;
    assert forall mv :: mv !in d.moveLines;
    var ls := r.invoice.lines;
    assert forall l :: l !in ls;
  }

  /** Two robot drafts of one company whose first finalization fails: the first gets
      the error message, the second is not attempted, and the result is false. */
  method RecoveryStopsAtFirstFailure() {
    var a := new Invoice(1, "INV/001", 100, true, false, InvoiceDraft);
    var b := new Invoice(2, "INV/002", 100, true, true, InvoiceDraft);
    assert [a, b][1..] == [b] && [b][1..] == [];
    assert RobotDrafts([], 100) == [];
    assert RobotDrafts([b], 100) == [b];
    assert RobotDrafts([a, b], 100) == [a, b];
    assert Outcomes([a, b]) == [false, true];
    var r := ProcessDraftInvoices([a, b], 100);
    assert r == Some(false);
    assert a.chatter == [FinalizeFailed("INV/001", 1)] && a.state == InvoiceDraft;
    assert b.chatter == [] && b.state == InvoiceDraft;
    r := ProcessDraftInvoices([a, b], 0);
    assert r == None;
  }
}
