/** Draft-invoice recovery (`_process_draft_invoices`): re-runs the finalization hook
    on the robot's invoices left in draft by an interrupted run, stopping at the first
    failure. */
module DraftRecovery {
  import opened Records

  /** The index of the first `false` in `outcomes`, or `|outcomes|` when there is none. */
  function FirstFailure(outcomes: seq<bool>): (k: nat)
    ensures k <= |outcomes|
    ensures forall i :: 0 <= i < k ==> outcomes[i]
    ensures k < |outcomes| ==> !outcomes[k]
    ensures k == |outcomes| <==> forall i :: 0 <= i < |outcomes| ==> outcomes[i]
  {
    if outcomes == [] then 0
    else if !outcomes[0] then 0
    else 1 + FirstFailure(outcomes[1..])
  }

  /** The robot's draft invoices of `company`, in record-store order (the search at
      the start of the recovery). It reads only that company's invoices, so changes to
      other companies' invoices leave it unchanged. */
  function RobotDrafts(invoices: seq<Invoice>, company: Id): (r: seq<Invoice>)
    reads set inv | inv in invoices && inv.company == company
    ensures forall inv :: inv in r ==>
              inv in invoices && inv.pickingInvoice && inv.state == InvoiceDraft && inv.company == company
    ensures forall inv ::
              (inv in invoices && inv.pickingInvoice && inv.state == InvoiceDraft && inv.company == company)
              ==> inv in r
  {
    if invoices == [] then []
    else
      var inv := invoices[0];
      (if inv.company == company && inv.pickingInvoice && inv.state == InvoiceDraft then [inv] else [])
      + RobotDrafts(invoices[1..], company)
  }

  /** The robot drafts `RobotDrafts` would find if the invoices' states were those of
      `states`. */
  function DraftsInStates(invoices: seq<Invoice>, company: Id, states: map<Invoice, InvoiceState>): seq<Invoice> {
    if invoices == [] then []
    else
      var inv := invoices[0];
      (if inv.company == company && inv.pickingInvoice && inv in states && states[inv] == InvoiceDraft
       then [inv] else [])
      + DraftsInStates(invoices[1..], company, states)
  }

  /** The search depends only on the states of the company's invoices. */
  lemma {:induction false} RobotDraftsInStates(invoices: seq<Invoice>, company: Id,
                                               states: map<Invoice, InvoiceState>)
    requires forall inv :: inv in invoices && inv.company == company ==> inv in states && states[inv] == inv.state
    ensures RobotDrafts(invoices, company) == DraftsInStates(invoices, company, states)
  {
    if invoices != [] {
      RobotDraftsInStates(invoices[1..], company, states);
    }
  }

  /** What the finalization hook does on each of `drafts`, in order. */
  function Outcomes(drafts: seq<Invoice>): (o: seq<bool>)
    ensures |o| == |drafts| && forall i :: 0 <= i < |drafts| ==> o[i] == drafts[i].preProcessSucceeds
  {
    seq(|drafts|, i requires 0 <= i < |drafts| => drafts[i].preProcessSucceeds)
  }

  /** The drafts the recovery finalizes: those before the first failure. */
  function Finalized(drafts: seq<Invoice>): (r: seq<Invoice>)
    ensures forall inv :: inv in r ==> inv in drafts && inv.preProcessSucceeds
  {
    drafts[..FirstFailure(Outcomes(drafts))]
  }

  /** The draft whose finalization fails, if any: the one that gets the error message. */
  function FailedDraft(drafts: seq<Invoice>): (r: Option<Invoice>)
    ensures r.Some? ==> r.value in drafts && !r.value.preProcessSucceeds
    ensures r.None? <==> forall i :: 0 <= i < |drafts| ==> drafts[i].preProcessSucceeds
  {
    var k := FirstFailure(Outcomes(drafts));
    if k < |drafts| then Some(drafts[k]) else None
  }

  /** The recovery loop over `drafts`: finalizes each in order; the first failure
      posts the error message on that invoice and stops with `false`, so later drafts
      are not attempted; `true` means every draft was finalized. */
  method FinalizeDrafts(drafts: seq<Invoice>) returns (ok: bool)
    modifies set inv | inv in drafts
    ensures ok == FailedDraft(drafts).None?
    ensures forall inv :: inv in drafts ==>
              inv.state == (if inv in Finalized(drafts) then InvoiceOpen else old(inv.state))
    ensures forall inv :: inv in drafts ==>
              inv.chatter == (if FailedDraft(drafts) == Some(inv)
                              then old(inv.chatter) + [FinalizeFailed(inv.number, inv.id)]
                              else old(inv.chatter))
  {
    ghost var outcomes := Outcomes(drafts);
    ghost var k := FirstFailure(outcomes);
    var i := 0;
    while i < |drafts|
      invariant 0 <= i <= k
      invariant forall inv :: inv in drafts ==>
                  inv.state == (if inv in drafts[..i] then InvoiceOpen else old(inv.state))
      invariant forall inv :: inv in drafts ==> inv.chatter == old(inv.chatter)
    {
      var inv := drafts[i];
      assert outcomes[i] == inv.preProcessSucceeds;
      if !inv.preProcessSucceeds {
        assert i == k;
        assert FailedDraft(drafts) == Some(inv);
        inv.chatter := inv.chatter + [FinalizeFailed(inv.number, inv.id)];
        return false;
      }
      inv.state := InvoiceOpen;
      assert drafts[..i + 1] == drafts[..i] + [inv];
      i := i + 1;
    }
    assert i == k && drafts[..i] == drafts;
    return true;
  }

  /** `_process_draft_invoices(company_id)` over the invoice records `invoices`.
      A falsy company id (0) returns no value and touches nothing. Otherwise the
      company's robot drafts go through the recovery loop, and its verdict is returned. */
  method ProcessDraftInvoices(invoices: seq<Invoice>, companyId: Id) returns (r: Option<bool>)
    modifies set inv | inv in invoices && inv.company == companyId
    ensures companyId == 0 ==> r == None
    ensures companyId != 0 ==>
              r == Some(FailedDraft(old(RobotDrafts(invoices, companyId))).None?)
    ensures forall inv :: inv in invoices ==>
              inv.state == (if companyId != 0 && inv in Finalized(old(RobotDrafts(invoices, companyId)))
                            then InvoiceOpen else old(inv.state))
    ensures forall inv :: inv in invoices ==>
              inv.chatter == (if companyId != 0 && FailedDraft(old(RobotDrafts(invoices, companyId))) == Some(inv)
                              then old(inv.chatter) + [FinalizeFailed(inv.number, inv.id)]
                              else old(inv.chatter))
  {
    if companyId == 0 {
      return None;
    }
    var drafts := RobotDrafts(invoices, companyId);
    assert drafts == old(RobotDrafts(invoices, companyId));
    var ok := FinalizeDrafts(drafts);
    return Some(ok);
  }

  /** The state of `inv`, first `s`, after recovery passes over the draft lists
      `passes`, in order: a pass that finalizes it makes it open. */
  function StateAfterPasses(inv: Invoice, s: InvoiceState, passes: seq<seq<Invoice>>): InvoiceState {
    if passes == [] then s
    else if inv in Finalized(passes[|passes| - 1]) then InvoiceOpen
    else StateAfterPasses(inv, s, passes[..|passes| - 1])
  }

  /** The chatter of `inv`, first `c`, after recovery passes over `passes`, in order:
      a pass whose failing draft it is posts the error message on it. */
  function ChatterAfterPasses(inv: Invoice, c: seq<Message>, passes: seq<seq<Invoice>>): seq<Message> {
    if passes == [] then c
    else
      var before := ChatterAfterPasses(inv, c, passes[..|passes| - 1]);
      if FailedDraft(passes[|passes| - 1]) == Some(inv) then before + [FinalizeFailed(inv.number, inv.id)]
      else before
  }

  /** One more pass changes `inv` exactly when it finalizes it or reports it. */
  lemma AfterOneMorePass(inv: Invoice, s: InvoiceState, c: seq<Message>, passes: seq<seq<Invoice>>,
                         pass: seq<Invoice>)
    ensures StateAfterPasses(inv, s, passes + [pass]) ==
              (if inv in Finalized(pass) then InvoiceOpen else StateAfterPasses(inv, s, passes))
    ensures ChatterAfterPasses(inv, c, passes + [pass]) ==
              (if FailedDraft(pass) == Some(inv)
               then ChatterAfterPasses(inv, c, passes) + [FinalizeFailed(inv.number, inv.id)]
               else ChatterAfterPasses(inv, c, passes))
  {
    assert (passes + [pass])[..|passes|] == passes;
  }

  /** Passes none of whose draft lists holds `inv` leave it as it was. */
  lemma {:induction false} UntouchedByPasses(inv: Invoice, s: InvoiceState, c: seq<Message>,
                                             passes: seq<seq<Invoice>>)
    requires forall k :: 0 <= k < |passes| ==> inv !in passes[k]
    ensures StateAfterPasses(inv, s, passes) == s
    ensures ChatterAfterPasses(inv, c, passes) == c
  {
    if passes != [] {
      var init := passes[..|passes| - 1];
      assert forall k :: 0 <= k < |init| ==> init[k] == passes[k];
      UntouchedByPasses(inv, s, c, init);
    }
  }

  /** When only the pass `passes[j]` holds `inv`, the passes act on it as that one pass
      does: `_process_draft_invoices` of one company. */
  lemma {:induction false} OnlyPass(inv: Invoice, s: InvoiceState, c: seq<Message>,
                                    passes: seq<seq<Invoice>>, j: nat)
    requires j < |passes|
    requires forall k :: 0 <= k < |passes| && k != j ==> inv !in passes[k]
    ensures StateAfterPasses(inv, s, passes) == (if inv in Finalized(passes[j]) then InvoiceOpen else s)
    ensures ChatterAfterPasses(inv, c, passes) ==
              (if FailedDraft(passes[j]) == Some(inv) then c + [FinalizeFailed(inv.number, inv.id)] else c)
  {
    var init := passes[..|passes| - 1];
    assert forall k :: 0 <= k < |init| ==> init[k] == passes[k];
    if j == |passes| - 1 {
      UntouchedByPasses(inv, s, c, init);
    } else {
      assert inv !in passes[|passes| - 1];
      OnlyPass(inv, s, c, init, j);
    }
  }
}
