/** The batch orchestrator (`generate_check_invoice`): per robot-enabled company,
    recover the drafts of an interrupted run, then invoice each eligible delivery once,
    grouped by customer, flagging every delivery it processes. */
module Robot {
  import opened Records
  import opened Outstanding
  import opened InvoiceCreation
  import opened DraftRecovery

  datatype Company = Company(id: Id, runInvoiceRobot: bool)

  /** An invoice the run created, with the picking it was created for. */
  datatype CreatedInvoice = CreatedInvoice(picking: Picking, invoice: NewInvoice)

  /** The companies with the robot switched on, in record-store order. */
  function RobotCompanies(companies: seq<Company>): (r: seq<Company>)
    ensures forall c :: c in r <==> c in companies && c.runInvoiceRobot
  {
    if companies == [] then []
    else (if companies[0].runInvoiceRobot then [companies[0]] else []) + RobotCompanies(companies[1..])
  }

  /** The company ids of `cs` are distinct, as the ids of records are. */
  predicate DistinctIds(cs: seq<Company>) {
    forall i, j :: 0 <= i < j < |cs| ==> cs[i].id != cs[j].id
  }

  /** The ids of the companies `cs`. */
  function CompanyIds(cs: seq<Company>): set<Id> {
    set c | c in cs :: c.id
  }

  /** The picking search of one company, apart from the flag: a completed outgoing
      delivery of `company` scheduled on or after `start`. */
  predicate Candidate(p: Picking, start: int, company: Id) {
    p.state == Done && p.typeCode == Outgoing && p.scheduledDate >= start && p.company == company
  }

  /** A candidate the company's turn processes when its flag is unset: it has a
      procurement group and a customer (a delivery without a customer belongs to none
      of the customer groups). */
  predicate Due(p: Picking, start: int, company: Id) {
    p.group != 0 && p.partner != 0 && Candidate(p, start, company)
  }

  /** The search of one company's pickings that still need processing. */
  function SearchPickings(pickings: seq<Picking>, start: int, company: Id): (r: seq<Picking>)
    reads pickings
    ensures forall p :: p in r ==> p in pickings && Candidate(p, start, company) && !p.invoiceCreated
    ensures forall p :: (p in pickings && Candidate(p, start, company) && !p.invoiceCreated) ==> p in r
  {
    if pickings == [] then []
    else
      var p := pickings[0];
      (if Candidate(p, start, company) && !p.invoiceCreated then [p] else [])
      + SearchPickings(pickings[1..], start, company)
  }

  /** The distinct customers of `ps`, in order of first appearance (`mapped("partner_id")`):
      an unset customer contributes nothing. */
  function Partners(ps: seq<Picking>): (r: seq<Id>)
    ensures 0 !in r
    ensures forall p :: p in ps && p.partner != 0 ==> p.partner in r
    ensures forall q :: q in r ==> exists p :: p in ps && p.partner == q
    ensures forall i, j :: 0 <= i < j < |r| ==> r[i] != r[j]
    decreases |ps|
  {
    if ps == [] then []
    else
      var init := Partners(ps[..|ps| - 1]);
      var last := ps[|ps| - 1];
      assert forall p :: p in ps ==> p in ps[..|ps| - 1] || p == last;
      assert forall p :: p in ps[..|ps| - 1] ==> p in ps;
      if last.partner == 0 || last.partner in init then init else init + [last.partner]
  }

  /** The pickings of one customer, in order. */
  function OfPartner(ps: seq<Picking>, partner: Id): (r: seq<Picking>)
    ensures forall p :: p in r ==> p in ps && p.partner == partner
    ensures forall p :: (p in ps && p.partner == partner) ==> p in r
  {
    if ps == [] then []
    else (if ps[0].partner == partner then [ps[0]] else []) + OfPartner(ps[1..], partner)
  }

  /** The run creates an invoice for a processed picking exactly when something of its
      sale order is still to invoice. */
  predicate HasOutstanding(p: Picking) {
    NotInvoiced(OrderLines(p)) != map[]
  }

  /** `e` is the invoice the run creates for its picking: the header `_prepare_invoice`
      builds for it, and the lines selected from the outstanding map of its sale order. */
  predicate InvoiceFor(e: CreatedInvoice, userCurrency: Id) {
    var p := e.picking;
    var lines, m := OrderLines(p), NotInvoiced(OrderLines(p));
    && e.invoice.header == PrepareInvoice(p, userCurrency)
    && DistinctSaleLines(e.invoice.lines)
    && FromMatchingLines(e.invoice.lines, lines, p.moveLines, m)
    && CoversMatchingLines(e.invoice.lines, lines, p.moveLines, m)
  }

  /** No picking has two of the invoices `created`. */
  predicate OncePerPicking(created: seq<CreatedInvoice>) {
    forall i, j :: 0 <= i < j < |created| ==> created[i].picking != created[j].picking
  }

  /** Invoices of two groups of pickings with none in common: together they still give
      each picking at most one invoice. */
  lemma OnceConcat(a: seq<CreatedInvoice>, b: seq<CreatedInvoice>)
    requires OncePerPicking(a) && OncePerPicking(b)
    requires forall e, e' :: e in a && e' in b ==> e.picking != e'.picking
    ensures OncePerPicking(a + b)
  {
    var c := a + b;
    forall i, j | 0 <= i < j < |c| ensures c[i].picking != c[j].picking {
      if j < |a| {
        assert c[i] == a[i] && c[j] == a[j];
      } else if i >= |a| {
        assert c[i] == b[i - |a|] && c[j] == b[j - |a|];
      } else {
        assert c[i] == a[i] && a[i] in a;
        assert c[j] == b[j - |a|] && b[j - |a|] in b;
      }
    }
  }

  /** The body of the innermost loop for one picking: compute its outstanding map,
      try to create its invoice, then flag it, whether or not an invoice came out. */
  method ProcessPicking(p: Picking, userCurrency: Id) returns (invoice: Option<NewInvoice>)
    modifies p
    ensures p.invoiceCreated
    ensures invoice.Some? <==> HasOutstanding(p)
    ensures invoice.Some? ==> InvoiceFor(CreatedInvoice(p, invoice.value), userCurrency)
  {
    var notInvoiced := CheckInvoiceAlreadyCreated([p]);
    assert OrderLinesOf([p]) == OrderLines(p) by {
      assert [p][..0] == [];
    }
    var outcome := ActionCreateInvoice(p, AsMap(notInvoiced), userCurrency);
    p.invoiceCreated := true;
    invoice := if outcome.Created? then Some(outcome.invoice) else None;
  }

  /** The innermost loop, over the pickings of one customer: a picking with a
      procurement group and an unset flag is processed. */
  method ProcessPartnerPickings(ps: seq<Picking>, userCurrency: Id) returns (created: seq<CreatedInvoice>)
    modifies set p | p in ps
    ensures forall p :: p in ps ==> p.invoiceCreated == (old(p.invoiceCreated) || p.group != 0)
    ensures forall e :: e in created ==>
              && e.picking in ps && e.picking.group != 0 && !old(e.picking.invoiceCreated)
              && HasOutstanding(e.picking)
    ensures forall e :: e in created ==> InvoiceFor(e, userCurrency)
    ensures forall p :: p in ps && p.group != 0 && !old(p.invoiceCreated) && HasOutstanding(p) ==>
              exists e :: e in created && e.picking == p
    ensures OncePerPicking(created)
  {
    created := [];
    var j := 0;
    while j < |ps|
      invariant 0 <= j <= |ps|
      invariant forall p :: p in ps ==>
                  p.invoiceCreated == (old(p.invoiceCreated) || (p.group != 0 && p in ps[..j]))
      invariant forall e :: e in created ==>
                  && e.picking in ps[..j] && e.picking.group != 0 && !old(e.picking.invoiceCreated)
                  && HasOutstanding(e.picking)
      invariant forall e :: e in created ==> InvoiceFor(e, userCurrency)
      invariant forall p :: p in ps[..j] && p.group != 0 && !old(p.invoiceCreated) && HasOutstanding(p) ==>
                  exists e :: e in created && e.picking == p
      invariant OncePerPicking(created)
    {
      var p := ps[j];
      assert p in ps;
      if p.group != 0 && !p.invoiceCreated {
        assert p !in ps[..j];
        var invoice := ProcessPicking(p, userCurrency);
        if invoice.Some? {
          var e := CreatedInvoice(p, invoice.value);
          OnceConcat(created, [e]);
          created := created + [e];
        }
      }
      assert ps[..j + 1] == ps[..j] + [p];
      j := j + 1;
    }
    assert ps[..j] == ps;
  }

  /** One company's pickings, customer by customer; a picking without a customer is in
      no customer's group and is left alone. */
  method ProcessBatch(batch: seq<Picking>, userCurrency: Id) returns (created: seq<CreatedInvoice>)
    modifies set p | p in batch
    ensures forall p :: p in batch ==>
              p.invoiceCreated == (old(p.invoiceCreated) || (p.group != 0 && p.partner != 0))
    ensures forall e :: e in created ==>
              && e.picking in batch && e.picking.group != 0 && e.picking.partner != 0
              && !old(e.picking.invoiceCreated) && HasOutstanding(e.picking)
    ensures forall e :: e in created ==> InvoiceFor(e, userCurrency)
    ensures forall p :: p in batch && p.group != 0 && p.partner != 0 && !old(p.invoiceCreated)
                        && HasOutstanding(p) ==>
              exists e :: e in created && e.picking == p
    ensures OncePerPicking(created)
  {
    created := [];
    var partners := Partners(batch);
    var k := 0;
    while k < |partners|
      invariant 0 <= k <= |partners|
      invariant forall p :: p in batch ==>
                  p.invoiceCreated == (old(p.invoiceCreated) || (p.group != 0 && p.partner in partners[..k]))
      invariant forall e :: e in created ==>
                  && e.picking in batch && e.picking.group != 0 && e.picking.partner in partners[..k]
                  && !old(e.picking.invoiceCreated) && HasOutstanding(e.picking)
      invariant forall e :: e in created ==> InvoiceFor(e, userCurrency)
      invariant forall p :: p in batch && p.partner in partners[..k] && p.group != 0 && !old(p.invoiceCreated)
                            && HasOutstanding(p) ==>
                  exists e :: e in created && e.picking == p
      invariant OncePerPicking(created)
    {
      var ofPartner := OfPartner(batch, partners[k]);
      assert forall o: object :: o in ofPartner ==> o in batch;
      var more := ProcessPartnerPickings(ofPartner, userCurrency);
      assert partners[k] !in partners[..k];
      forall e, e' | e in created && e' in more ensures e.picking != e'.picking {
        assert e'.picking.partner == partners[k];
      }
      OnceConcat(created, more);
      created := created + more;
      assert partners[..k + 1] == partners[..k] + [partners[k]];
      k := k + 1;
    }
    assert partners[..k] == partners;
  }

  /** The pickings half of one company's turn: search its pickings still to process
      and process them. */
  method InvoiceDeliveries(companyId: Id, start: int, pickings: seq<Picking>, userCurrency: Id)
    returns (created: seq<CreatedInvoice>)
    modifies set p | p in pickings
    ensures forall p :: p in pickings ==>
              p.invoiceCreated == (old(p.invoiceCreated) || Due(p, start, companyId))
    ensures forall e :: e in created ==>
              && e.picking in pickings && !old(e.picking.invoiceCreated) && HasOutstanding(e.picking)
              && Due(e.picking, start, companyId)
    ensures forall e :: e in created ==> InvoiceFor(e, userCurrency)
    ensures forall p :: p in pickings && !old(p.invoiceCreated) && HasOutstanding(p) && Due(p, start, companyId) ==>
              exists e :: e in created && e.picking == p
    ensures OncePerPicking(created)
  {
    var batch := SearchPickings(pickings, start, companyId);
    created := ProcessBatch(batch, userCurrency);
  }

  /** One company's turn: recover its robot drafts, then invoice its deliveries. */
  method ProcessCompany(company: Company, start: int, pickings: seq<Picking>, invoices: seq<Invoice>,
                        userCurrency: Id)
    returns (created: seq<CreatedInvoice>)
    modifies set p | p in pickings, set inv | inv in invoices && inv.company == company.id
    ensures forall p :: p in pickings ==>
              p.invoiceCreated == (old(p.invoiceCreated) || Due(p, start, company.id))
    ensures forall inv :: inv in invoices && inv.company != company.id ==>
              inv.state == old(inv.state) && inv.chatter == old(inv.chatter)
    ensures forall inv :: inv in invoices ==>
              inv.state == (if company.id != 0 && inv in Finalized(old(RobotDrafts(invoices, company.id)))
                            then InvoiceOpen else old(inv.state))
    ensures forall inv :: inv in invoices ==>
              inv.chatter == (if company.id != 0 && FailedDraft(old(RobotDrafts(invoices, company.id))) == Some(inv)
                              then old(inv.chatter) + [FinalizeFailed(inv.number, inv.id)]
                              else old(inv.chatter))
    ensures forall e :: e in created ==>
              && e.picking in pickings && !old(e.picking.invoiceCreated) && HasOutstanding(e.picking)
              && Due(e.picking, start, company.id)
    ensures forall e :: e in created ==> InvoiceFor(e, userCurrency)
    ensures forall p :: p in pickings && !old(p.invoiceCreated) && HasOutstanding(p) && Due(p, start, company.id) ==>
              exists e :: e in created && e.picking == p
    ensures OncePerPicking(created)
  {
    var _ := ProcessDraftInvoices(invoices, company.id);
    assert forall p :: p in pickings ==> p.invoiceCreated == old(p.invoiceCreated);
    assert forall inv :: inv in invoices && inv.company != company.id ==>
             inv.state == old(inv.state) && inv.chatter == old(inv.chatter);
    created := InvoiceDeliveries(company.id, start, pickings, userCurrency);
  }

  /** A picking the run with start date `start` processes when its flag is unset: due
      in its own company, which is one of the companies `cs`. */
  predicate DueIn(p: Picking, start: int, cs: seq<Company>) {
    Due(p, start, p.company) && p.company in CompanyIds(cs)
  }

  /** A picking is due in the companies `done + [company]` when it is due in `done` or
      in `company`. */
  lemma DueInStep(p: Picking, start: int, done: seq<Company>, company: Company)
    ensures DueIn(p, start, done + [company]) == (DueIn(p, start, done) || Due(p, start, company.id))
  {
    assert CompanyIds(done + [company]) == CompanyIds(done) + {company.id};
  }

  /** The invoices `created` in the turns of the companies `done` of a run with start
      date `start`, against the pickings `flagged0` flagged at its start: each is the
      invoice of a due, unflagged picking with something to invoice, every such picking
      has one, and no picking has two. */
  ghost predicate CreatedSoFar(start: int, done: seq<Company>, pickings: seq<Picking>, userCurrency: Id,
                               flagged0: set<Picking>, created: seq<CreatedInvoice>)
  {
    && (forall e :: e in created ==>
          && e.picking in pickings && e.picking !in flagged0 && HasOutstanding(e.picking)
          && DueIn(e.picking, start, done))
    && (forall e :: e in created ==> InvoiceFor(e, userCurrency))
    && (forall p :: p in pickings && p !in flagged0 && HasOutstanding(p) && DueIn(p, start, done) ==>
          exists e :: e in created && e.picking == p)
    && OncePerPicking(created)
  }

  /** The turn of `company` adds the invoices `more` of its due pickings not flagged
      before it (`before`: those flagged at the start or due in an earlier turn). */
  lemma CreatedStep(start: int, done: seq<Company>, company: Company, pickings: seq<Picking>, userCurrency: Id,
                    flagged0: set<Picking>, before: set<Picking>, created: seq<CreatedInvoice>,
                    more: seq<CreatedInvoice>)
    requires CreatedSoFar(start, done, pickings, userCurrency, flagged0, created)
    requires forall p :: p in pickings ==> (p in before <==> p in flagged0 || DueIn(p, start, done))
    requires forall e :: e in more ==>
               && e.picking in pickings && e.picking !in before && HasOutstanding(e.picking)
               && Due(e.picking, start, company.id)
    requires forall e :: e in more ==> InvoiceFor(e, userCurrency)
    requires forall p :: p in pickings && p !in before && HasOutstanding(p) && Due(p, start, company.id) ==>
               exists e :: e in more && e.picking == p
    requires OncePerPicking(more)
    ensures CreatedSoFar(start, done + [company], pickings, userCurrency, flagged0, created + more)
  {
    forall p | p in pickings ensures DueIn(p, start, done + [company]) == (DueIn(p, start, done) || Due(p, start, company.id)) {
      DueInStep(p, start, done, company);
    }
    forall e, e' | e in created && e' in more ensures e.picking != e'.picking {
      assert e.picking in before && e'.picking !in before;
    }
    OnceConcat(created, more);
  }

  /** The recovery passes `passes` of the turns of the companies `done`: each goes over
      invoices of its own company, and, when the company ids are distinct, over the
      drafts the company had at the start of the run (`states0`). */
  ghost predicate PassesSoFar(done: seq<Company>, invoices: seq<Invoice>, states0: map<Invoice, InvoiceState>,
                              passes: seq<seq<Invoice>>)
  {
    && |passes| == |done|
    && (forall k, inv :: 0 <= k < |done| && inv in passes[k] ==> inv.company == done[k].id != 0)
    && (DistinctIds(done) ==>
          forall k :: 0 <= k < |done| && done[k].id != 0 ==>
            passes[k] == DraftsInStates(invoices, done[k].id, states0))
  }

  /** The turn of `company` adds its pass `pass`. */
  lemma PassesStep(done: seq<Company>, company: Company, invoices: seq<Invoice>,
                   states0: map<Invoice, InvoiceState>, passes: seq<seq<Invoice>>, pass: seq<Invoice>)
    requires PassesSoFar(done, invoices, states0, passes)
    requires forall inv :: inv in pass ==> inv.company == company.id != 0
    requires DistinctIds(done + [company]) && company.id != 0 ==>
               pass == DraftsInStates(invoices, company.id, states0)
    ensures PassesSoFar(done + [company], invoices, states0, passes + [pass])
  {
    var done', passes' := done + [company], passes + [pass];
    forall k, inv: Invoice | 0 <= k < |done'| && inv in passes'[k] ensures inv.company == done'[k].id != 0 {
      if k < |done| {
        assert passes'[k] == passes[k] && done'[k] == done[k];
      }
    }
    if DistinctIds(done') {
      assert DistinctIds(done) by {
        forall i, j | 0 <= i < j < |done| ensures done[i].id != done[j].id {
          assert done'[i] == done[i] && done'[j] == done[j];
        }
      }
      forall k | 0 <= k < |done'| && done'[k].id != 0
        ensures passes'[k] == DraftsInStates(invoices, done'[k].id, states0)
      {
        if k < |done| {
          assert passes'[k] == passes[k] && done'[k] == done[k];
        }
      }
    }
  }

  /** Where a run with start date `start` stands once the robot companies `done` have had
      their turns, stated against the records at the start of the run: `flagged0` are the
      pickings flagged then, `states0` and `chatters0` the invoices' states and chatters
      then, `created` the invoices created so far and `passes` the draft lists the
      recovery passes went over, one per company of `done`. */
  ghost predicate RunState(start: int, done: seq<Company>, pickings: seq<Picking>, invoices: seq<Invoice>,
                           userCurrency: Id, flagged0: set<Picking>, states0: map<Invoice, InvoiceState>,
                           chatters0: map<Invoice, seq<Message>>, created: seq<CreatedInvoice>,
                           passes: seq<seq<Invoice>>)
    reads pickings, invoices
  {
    && (forall p :: p in pickings ==> p.invoiceCreated == (p in flagged0 || DueIn(p, start, done)))
    && (forall inv :: inv in invoices ==>
          && inv in states0 && inv in chatters0
          && inv.state == StateAfterPasses(inv, states0[inv], passes)
          && inv.chatter == ChatterAfterPasses(inv, chatters0[inv], passes))
    && PassesSoFar(done, invoices, states0, passes)
    && CreatedSoFar(start, done, pickings, userCurrency, flagged0, created)
  }

  /** With distinct ids, the turn of `company` after the companies `done` finds the
      drafts its company had at the start of the run: no earlier pass touched them. */
  lemma TurnDrafts(start: int, done: seq<Company>, company: Company, pickings: seq<Picking>,
                   invoices: seq<Invoice>, userCurrency: Id, flagged0: set<Picking>,
                   states0: map<Invoice, InvoiceState>, chatters0: map<Invoice, seq<Message>>,
                   created: seq<CreatedInvoice>, passes: seq<seq<Invoice>>)
    requires RunState(start, done, pickings, invoices, userCurrency, flagged0, states0, chatters0, created, passes)
    requires DistinctIds(done + [company])
    ensures RobotDrafts(invoices, company.id) == DraftsInStates(invoices, company.id, states0)
  {
    forall inv | inv in invoices && inv.company == company.id
      ensures inv in states0 && states0[inv] == inv.state
    {
      forall k | 0 <= k < |passes| ensures inv !in passes[k] {
        var turns := done + [company];
        assert turns[k] == done[k] && turns[|done|] == company;
        assert turns[k].id != turns[|done|].id;
      }
      UntouchedByPasses(inv, states0[inv], chatters0[inv], passes);
    }
    RobotDraftsInStates(invoices, company.id, states0);
  }

  /** One turn of the loop of `generate_check_invoice`, for the robot company `company`
      after the companies `done`: `ProcessCompany`, accounted against the start of the run. */
  method CompanyTurn(company: Company, start: int, pickings: seq<Picking>, invoices: seq<Invoice>,
                     userCurrency: Id, ghost done: seq<Company>, ghost flagged0: set<Picking>,
                     ghost states0: map<Invoice, InvoiceState>, ghost chatters0: map<Invoice, seq<Message>>,
                     created: seq<CreatedInvoice>, ghost passes: seq<seq<Invoice>>)
    returns (created': seq<CreatedInvoice>, ghost passes': seq<seq<Invoice>>)
    requires RunState(start, done, pickings, invoices, userCurrency, flagged0, states0, chatters0, created, passes)
    modifies set p | p in pickings, set inv | inv in invoices && inv.company == company.id
    ensures RunState(start, done + [company], pickings, invoices, userCurrency, flagged0, states0, chatters0,
                     created', passes')
  {
    ghost var before := set p | p in pickings && p.invoiceCreated;
    assert forall p :: p in pickings ==> (p in before <==> p in flagged0 || DueIn(p, start, done));
    ghost var pass := if company.id == 0 then [] else RobotDrafts(invoices, company.id);
    if DistinctIds(done + [company]) && company.id != 0 {
      TurnDrafts(start, done, company, pickings, invoices, userCurrency, flagged0, states0, chatters0,
                 created, passes);
    }
    var more := ProcessCompany(company, start, pickings, invoices, userCurrency);
    assert forall p :: p in pickings ==> p.invoiceCreated == (p in before || Due(p, start, company.id));
    CreatedStep(start, done, company, pickings, userCurrency, flagged0, before, created, more);
    PassesStep(done, company, invoices, states0, passes, pass);
    created' := created + more;
    passes' := passes + [pass];
    forall p | p in pickings ensures p.invoiceCreated == (p in flagged0 || DueIn(p, start, done + [company])) {
      DueInStep(p, start, done, company);
    }
    if company.id == 0 {
      assert Finalized(pass) == [] && FailedDraft(pass) == None;
    }
    forall inv | inv in invoices
      ensures inv.state == StateAfterPasses(inv, states0[inv], passes')
      ensures inv.chatter == ChatterAfterPasses(inv, chatters0[inv], passes')
    {
      AfterOneMorePass(inv, states0[inv], chatters0[inv], passes, pass);
    }
  }

  /** What the passes of the turns of the companies `done` did to the invoice `inv`,
      of state `s` and chatter `c` at the start of the run: nothing when its company is
      not among them (or is unset), and otherwise (with distinct ids) the recovery of
      its company's drafts at the start of the run. */
  lemma PassesOutcome(inv: Invoice, s: InvoiceState, c: seq<Message>, done: seq<Company>, invoices: seq<Invoice>,
                      states0: map<Invoice, InvoiceState>, passes: seq<seq<Invoice>>)
    requires PassesSoFar(done, invoices, states0, passes)
    ensures inv.company == 0 || inv.company !in CompanyIds(done) ==>
              StateAfterPasses(inv, s, passes) == s && ChatterAfterPasses(inv, c, passes) == c
    ensures DistinctIds(done) && inv.company != 0 && inv.company in CompanyIds(done) ==>
              && StateAfterPasses(inv, s, passes) ==
                   (if inv in Finalized(DraftsInStates(invoices, inv.company, states0)) then InvoiceOpen else s)
              && ChatterAfterPasses(inv, c, passes) ==
                   (if FailedDraft(DraftsInStates(invoices, inv.company, states0)) == Some(inv)
                    then c + [FinalizeFailed(inv.number, inv.id)] else c)
  {
    if inv.company == 0 || inv.company !in CompanyIds(done) {
      forall k | 0 <= k < |passes| ensures inv !in passes[k] {
        assert done[k] in done;
      }
      UntouchedByPasses(inv, s, c, passes);
    } else if DistinctIds(done) {
      var d :| d in done && d.id == inv.company;
      var j :| 0 <= j < |done| && done[j] == d;
      OnlyPass(inv, s, c, passes, j);
    }
  }

  /** Before the first turn, the run stands where its snapshots say. */
  lemma StartState(start: int, pickings: seq<Picking>, invoices: seq<Invoice>, userCurrency: Id,
                   flagged0: set<Picking>, states0: map<Invoice, InvoiceState>,
                   chatters0: map<Invoice, seq<Message>>)
    requires forall p :: p in pickings ==> (p in flagged0 <==> p.invoiceCreated)
    requires forall inv :: inv in invoices ==>
               inv in states0 && states0[inv] == inv.state && inv in chatters0 && chatters0[inv] == inv.chatter
    ensures RunState(start, [], pickings, invoices, userCurrency, flagged0, states0, chatters0, [], [])
  {
    assert CompanyIds([]) == {};
  }

  /** The loop of `generate_check_invoice` over the robot companies `robotCompanies`,
      from the start of the run. */
  method RunCompanies(start: int, robotCompanies: seq<Company>, pickings: seq<Picking>, invoices: seq<Invoice>,
                      userCurrency: Id, ghost flagged0: set<Picking>, ghost states0: map<Invoice, InvoiceState>,
                      ghost chatters0: map<Invoice, seq<Message>>)
    returns (created: seq<CreatedInvoice>, ghost passes: seq<seq<Invoice>>)
    requires RunState(start, [], pickings, invoices, userCurrency, flagged0, states0, chatters0, [], [])
    modifies set p | p in pickings, set inv | inv in invoices
    ensures RunState(start, robotCompanies, pickings, invoices, userCurrency, flagged0, states0, chatters0,
                     created, passes)
  {
    created, passes := [], [];
    var i := 0;
    while i < |robotCompanies|
      invariant 0 <= i <= |robotCompanies|
      invariant RunState(start, robotCompanies[..i], pickings, invoices, userCurrency, flagged0, states0,
                         chatters0, created, passes)
    {
      assert robotCompanies[..i + 1] == robotCompanies[..i] + [robotCompanies[i]];
      created, passes := CompanyTurn(robotCompanies[i], start, pickings, invoices, userCurrency,
                                     robotCompanies[..i], flagged0, states0, chatters0, created, passes);
      i := i + 1;
    }
    assert robotCompanies[..i] == robotCompanies;
  }

  /** `generate_check_invoice`. `startDate` is the parsed configuration parameter
      (`None` when it is missing or malformed); `companies`, `pickings` and `invoices`
      are the records of the store; `userCurrency` is the current user's company
      currency. */
  method GenerateCheckInvoice(startDate: Option<int>, companies: seq<Company>, pickings: seq<Picking>,
                              invoices: seq<Invoice>, userCurrency: Id)
    returns (created: seq<CreatedInvoice>)
    modifies set p | p in pickings, set inv | inv in invoices
    ensures startDate.None? ==> created == []
    ensures startDate.None? ==> forall p :: p in pickings ==> p.invoiceCreated == old(p.invoiceCreated)
    ensures startDate.None? ==>
              forall inv :: inv in invoices ==> inv.state == old(inv.state) && inv.chatter == old(inv.chatter)
    ensures startDate.Some? ==>
              forall p :: p in pickings ==>
                p.invoiceCreated == (old(p.invoiceCreated) || DueIn(p, startDate.value, RobotCompanies(companies)))
    ensures forall inv :: inv in invoices && inv.company !in CompanyIds(RobotCompanies(companies)) ==>
              inv.state == old(inv.state) && inv.chatter == old(inv.chatter)
    ensures startDate.Some? && DistinctIds(RobotCompanies(companies)) ==>
              forall inv :: inv in invoices && inv.company in CompanyIds(RobotCompanies(companies)) ==>
                inv.state == (if inv.company != 0 && inv in Finalized(old(RobotDrafts(invoices, inv.company)))
                              then InvoiceOpen else old(inv.state))
    ensures startDate.Some? && DistinctIds(RobotCompanies(companies)) ==>
              forall inv :: inv in invoices && inv.company in CompanyIds(RobotCompanies(companies)) ==>
                inv.chatter == (if inv.company != 0 && FailedDraft(old(RobotDrafts(invoices, inv.company))) == Some(inv)
                                then old(inv.chatter) + [FinalizeFailed(inv.number, inv.id)]
                                else old(inv.chatter))
    ensures startDate.Some? ==>
              forall e :: e in created ==>
                && e.picking in pickings && !old(e.picking.invoiceCreated) && HasOutstanding(e.picking)
                && DueIn(e.picking, startDate.value, RobotCompanies(companies))
    ensures forall e :: e in created ==> InvoiceFor(e, userCurrency)
    ensures startDate.Some? ==>
              forall p :: p in pickings && !old(p.invoiceCreated) && HasOutstanding(p)
                          && DueIn(p, startDate.value, RobotCompanies(companies)) ==>
                exists e :: e in created && e.picking == p
    ensures OncePerPicking(created)
  {
    created := [];
    if startDate.None? {
      return;
    }
    var start := startDate.value;
    var robotCompanies := RobotCompanies(companies);
    ghost var flagged0 := set p | p in pickings && p.invoiceCreated;
    ghost var states0: map<Invoice, InvoiceState> := map inv: Invoice | inv in invoices :: inv.state;
    ghost var chatters0: map<Invoice, seq<Message>> := map inv: Invoice | inv in invoices :: inv.chatter;
    forall inv | inv in invoices ensures RobotDrafts(invoices, inv.company) == DraftsInStates(invoices, inv.company, states0) {
      RobotDraftsInStates(invoices, inv.company, states0);
    }
    StartState(start, pickings, invoices, userCurrency, flagged0, states0, chatters0);
    ghost var passes;
    created, passes := RunCompanies(start, robotCompanies, pickings, invoices, userCurrency,
                                    flagged0, states0, chatters0);
    assert CreatedSoFar(start, robotCompanies, pickings, userCurrency, flagged0, created);
    assert forall p :: p in pickings ==> (p in flagged0 <==> old(p.invoiceCreated));
    forall inv | inv in invoices {
      PassesOutcome(inv, states0[inv], chatters0[inv], robotCompanies, invoices, states0, passes);
    }
  }

  /** The job runs periodically. A second run over the same records with the same
      start date creates no invoice: every delivery the first run could invoice is
      flagged by then, so each delivery is invoiced at most once. */
  method RunTwice(startDate: Option<int>, companies: seq<Company>, pickings: seq<Picking>,
                  invoices: seq<Invoice>, userCurrency: Id)
    returns (first: seq<CreatedInvoice>, second: seq<CreatedInvoice>)
    modifies set p | p in pickings, set inv | inv in invoices
    ensures forall e :: e !in second
  {
    first := GenerateCheckInvoice(startDate, companies, pickings, invoices, userCurrency);
    second := GenerateCheckInvoice(startDate, companies, pickings, invoices, userCurrency);
  }
}
