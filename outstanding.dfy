/** The outstanding-quantity calculator (`_check_invoice_already_created`): for the
    sale-order lines of some pickings, the map from sale-line id to the quantity
    still to invoice. */
module Outstanding {
  import opened Records

  /** Delivered minus invoiced, in the unit the product is tracked in: the secondary
      (catch-weight) unit for CW products, the standard unit for all others. */
  function Remaining(l: SaleLine): real {
    if l.isCw then l.cwQtyDelivered - l.cwQtyInvoiced else l.qtyDelivered - l.qtyInvoiced
  }

  /** The map the calculator builds from `lines`, scanned in order: a line with a
      positive remaining quantity stores it under its id (a later line with the same
      id overwrites it); a line with nothing remaining stores nothing. */
  function NotInvoiced(lines: seq<SaleLine>): map<Id, real>
    decreases |lines|
  {
    if lines == [] then map[]
    else
      var rest := NotInvoiced(lines[..|lines| - 1]);
      var last := lines[|lines| - 1];
      if Remaining(last) > 0.0 then rest[last.id := Remaining(last)] else rest
  }

  /** The order lines of all `pickings`, in the order the calculator visits them. */
  function OrderLinesOf(pickings: seq<Picking>): seq<SaleLine>
    decreases |pickings|
  {
    if pickings == [] then []
    else OrderLinesOf(pickings[..|pickings| - 1]) + OrderLines(pickings[|pickings| - 1])
  }

  predicate UniqueIds(lines: seq<SaleLine>) {
    forall i, j :: 0 <= i < j < |lines| ==> lines[i].id != lines[j].id
  }

  /** Every value in the map is strictly positive: a fully invoiced line is absent,
      never stored as zero. */
  lemma {:induction false} NotInvoicedPositive(lines: seq<SaleLine>)
    ensures forall k :: k in NotInvoiced(lines) ==> NotInvoiced(lines)[k] > 0.0
  {
    if lines != [] {
      NotInvoicedPositive(lines[..|lines| - 1]);
    }
  }

  /** An id is a key exactly when some line with that id has something left to invoice. */
  lemma {:induction false} NotInvoicedKeys(lines: seq<SaleLine>, k: Id)
    ensures k in NotInvoiced(lines) <==>
              exists i :: 0 <= i < |lines| && lines[i].id == k && Remaining(lines[i]) > 0.0
  {
    if lines != [] {
      var init := lines[..|lines| - 1];
      NotInvoicedKeys(init, k);
      if k in NotInvoiced(init) {
        var i :| 0 <= i < |init| && init[i].id == k && Remaining(init[i]) > 0.0;
        assert lines[i] == init[i];
      }
      if exists i :: 0 <= i < |lines| && lines[i].id == k && Remaining(lines[i]) > 0.0 {
        var i :| 0 <= i < |lines| && lines[i].id == k && Remaining(lines[i]) > 0.0;
        if i < |init| {
          assert init[i] == lines[i];
        }
      }
    }
  }

  /** For lines with distinct ids (as the lines of a sale order are), the entry of each
      line is its delivered minus invoiced quantity in the secondary unit when the
      product is CW and in the standard unit otherwise, and it is present exactly when
      that difference is positive. */
  lemma {:induction false} NotInvoicedEntry(lines: seq<SaleLine>, i: nat)
    requires UniqueIds(lines) && i < |lines|
    ensures var l, m := lines[i], NotInvoiced(lines);
            && (l.isCw ==> (l.id in m <==> l.cwQtyDelivered - l.cwQtyInvoiced > 0.0))
            && (l.isCw && l.id in m ==> m[l.id] == l.cwQtyDelivered - l.cwQtyInvoiced)
            && (!l.isCw ==> (l.id in m <==> l.qtyDelivered - l.qtyInvoiced > 0.0))
            && (!l.isCw && l.id in m ==> m[l.id] == l.qtyDelivered - l.qtyInvoiced)
  {
    var n := |lines| - 1;
    var init := lines[..n];
    assert UniqueIds(init) by {
      forall a, b | 0 <= a < b < |init| ensures init[a].id != init[b].id {
        assert init[a] == lines[a] && init[b] == lines[b];
      }
    }
    if i < n {
      assert init[i] == lines[i];
      NotInvoicedEntry(init, i);
    } else {
      forall j | 0 <= j < |init| ensures init[j].id != lines[i].id {
        assert init[j] == lines[j];
      }
      NotInvoicedKeys(init, lines[i].id);
    }
  }

  /** `_check_invoice_already_created` on the recordset `pickings`: visits the lines of
      each picking's sale order and fills the map. */
  method CheckInvoiceAlreadyCreated(pickings: seq<Picking>) returns (notInvoiced: map<Id, real>)
    ensures notInvoiced == NotInvoiced(OrderLinesOf(pickings))
    ensures forall k :: k in notInvoiced ==> notInvoiced[k] > 0.0
  {
    notInvoiced := map[];
    var i := 0;
    while i < |pickings|
      invariant 0 <= i <= |pickings|
      invariant notInvoiced == NotInvoiced(OrderLinesOf(pickings[..i]))
    {
      var lines := OrderLines(pickings[i]);
      ghost var before := OrderLinesOf(pickings[..i]);
      var j := 0;
      assert before + lines[..0] == before;
      while j < |lines|
        invariant 0 <= j <= |lines|
        invariant notInvoiced == NotInvoiced(before + lines[..j])
      {
        var line := lines[j];
        assert (before + lines[..j + 1])[..|before + lines[..j + 1]| - 1] == before + lines[..j];
        assert (before + lines[..j + 1])[|before + lines[..j + 1]| - 1] == line;
        if line.isCw {
          if line.cwQtyDelivered - line.cwQtyInvoiced > 0.0 {
            notInvoiced := notInvoiced[line.id := line.cwQtyDelivered - line.cwQtyInvoiced];
          }
        } else if line.qtyDelivered - line.qtyInvoiced > 0.0 {
          notInvoiced := notInvoiced[line.id := line.qtyDelivered - line.qtyInvoiced];
        }
        j := j + 1;
      }
      assert lines[..j] == lines;
      assert pickings[..i + 1][..i] == pickings[..i];
      i := i + 1;
    }
    assert pickings[..i] == pickings;
    NotInvoicedPositive(OrderLinesOf(pickings));
  }
}
