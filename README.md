# Invoice robot: a Dafny model

The invoice robot is a scheduled job of an Odoo installation. It turns completed outgoing
deliveries (stock pickings) into customer invoices. For each company that has the robot
switched on, one run does two things:

- It first recovers the company's robot-generated invoices left in draft by an interrupted
  run.
- It then takes every completed outgoing delivery of that company, scheduled on or after a
  configured start date and not yet flagged as invoiced. These are grouped by customer.
  Each delivery that has a procurement group and a customer goes through three steps:
  - computing what its sale order still has to invoice;
  - creating an invoice from that;
  - flagging the delivery.

This project models these pieces and proves their contracts:

- the outstanding-quantity calculator;
- the invoice-line selection;
- the invoice header with its global-discount override;
- the draft recovery;
- the batch orchestrator.

Model layout, one module per file:

- `records.dfy` (`Records`): the records the robot works on.
  - Sale-order lines, stock move lines and sale orders are values.
  - Pickings and invoices are classes. Their mutable fields are the only fields the robot
    updates: `Picking.invoiceCreated`, and `Invoice.state` and `Invoice.chatter`.
  - Record identifiers are naturals, and 0 stands for an empty reference.
- `outstanding.dfy` (`Outstanding`): `_check_invoice_already_created`.
  - It is a loop that fills the not-invoiced map.
  - It is specified by the function `NotInvoiced`, and the lemmas are about that function.
- `invoice_creation.dfy` (`InvoiceCreation`): `_prepare_invoice` and
  `action_create_invoice`.
  - A function builds the header.
  - The line-selection loop is written with an explicit `done` set of sale-line ids.
- `draft_recovery.dfy` (`DraftRecovery`): `_process_draft_invoices`. It is an in-order loop
  over the robot's drafts that exits early at the first failure.
- `robot.dfy` (`Robot`): `generate_check_invoice`.
  - There are nested loops over companies, customers and pickings, and they set the
    delivery flags.
  - The loop over companies is stated against the records at the start of the run
    (`RunState`). One turn (`CompanyTurn`) carries that state from one company to the next.
  - There is a cross-run property: a second run creates nothing.
- `scenarios.dfy` (`Scenarios`): client methods checked by the verifier, calling the
  operations on concrete records. They show what the contracts let a caller conclude, for
  example that a fully invoiced delivery still gets flagged.

Decisions, in the system's own terms:

- **The flag comes before the result check.** Line 59 sets `invoice_created` for both
  outcomes of line 58, and only line 61 then checks whether an invoice came back. A
  delivery whose sale order has nothing left to invoice is therefore flagged without an
  invoice. So a set `invoice_created` does not mean that an invoice exists. The model sets
  the flag for every processed delivery.
- **Deliveries without a customer.** `mapped("partner_id")` at line 44 drops an unset
  customer, so such a delivery is in no customer group. The loop at lines 45–62 never
  reaches it: it is neither flagged nor invoiced.
- **Company ids are distinct,** as the ids of records are. The draft recovery of each robot
  company is stated under that condition (`DistinctIds`).
- **The argument to `action_create_invoice`** is either a map or a list of maps. An empty
  list makes `not_invoiced[0]` raise an `IndexError`. The model returns that as the
  outcome `IndexError`.
- **A missing or unreadable start date** is the input `None`. Dates are integers, compared
  the way the search compares `scheduled_date` with the start date.
- **The finalization hook `_pre_process_invoice`** belongs to another module. Each invoice
  carries its outcome as a constant `preProcessSucceeds`. Success moves the invoice out of
  draft (`InvoiceOpen`). Failure is the hook raising.

## Model

| member | source | states |
|---|---|---|
| Outstanding.CheckInvoiceAlreadyCreated | rungisapps/metro_rungis_invoice_robot/models/stock_picking.py:100-112 | The loop over the pickings and their order lines returns exactly the not-invoiced map of all those lines in visiting order. Every value in it is strictly positive. |
| Outstanding.NotInvoicedPositive | rungisapps/metro_rungis_invoice_robot/models/stock_picking.py:102-111 | Every entry of the not-invoiced map is strictly positive. A line with nothing left is absent, never stored as zero. |
| Outstanding.NotInvoicedKeys | rungisapps/metro_rungis_invoice_robot/models/stock_picking.py:102-111 | An id is a key exactly when some line with that id has a positive delivered-minus-invoiced remainder in its unit (both directions). |
| Outstanding.NotInvoicedEntry | rungisapps/metro_rungis_invoice_robot/models/stock_picking.py:105-111 | For order lines with distinct ids, a CW line is present exactly when its secondary-unit delivered minus invoiced is positive, and its value is that difference. A non-CW line behaves the same with the standard-unit fields. |
| InvoiceCreation.GlobalDiscounts | rungisapps/metro_rungis_invoice_robot/models/stock_picking.py:188-190 | The order's own global-discount list wins when it is non-empty; otherwise the customer's default list is used. The result is empty only when both are. |
| InvoiceCreation.PrepareInvoice | rungisapps/metro_rungis_invoice_robot/models/stock_picking.py:191-209 | The header is a customer invoice marked as robot-generated, built from the order and the picking. It uses the global-discount override. The currency falls back to the user company's currency when the pricelist has none. The fiscal position falls back to the invoice partner's. |
| InvoiceCreation.Unwrap | rungisapps/metro_rungis_invoice_robot/models/stock_picking.py:120-121 | A map is used as it is. A list yields its first element. An empty list yields nothing (the `IndexError`). |
| InvoiceCreation.LinesOfProduct | rungisapps/metro_rungis_invoice_robot/models/stock_picking.py:145 | The candidates of a move line are exactly the order lines with its product. |
| InvoiceCreation.LineFor | rungisapps/metro_rungis_invoice_robot/models/stock_picking.py:149-170 | The created line points at its sale line and carries the move line's product. A non-CW line invoices the map value in the standard unit and 0 in the secondary unit. A CW line invoices the map value in the secondary unit and delivered minus invoiced in the standard unit. |
| InvoiceCreation.InvoicedQuantities | rungisapps/metro_rungis_invoice_robot/models/stock_picking.py:159-160 | On the robot's own map, a selected sale line's invoice line carries its positive delivered-minus-invoiced quantity in the product's unit: standard for non-CW, secondary for CW. |
| InvoiceCreation.AppendLine | rungisapps/metro_rungis_invoice_robot/models/stock_picking.py:148-171 | Emitting the line for a sale line still to invoice and not yet done keeps three things: the done set equals the set of invoiced sale lines, no sale line twice, and every line from a matching sale line. |
| InvoiceCreation.ScanCandidates | rungisapps/metro_rungis_invoice_robot/models/stock_picking.py:147-171 | The scan of one move line's candidates keeps the three selection invariants, only adds to the done set, and leaves every candidate still to invoice done. |
| InvoiceCreation.CreateInvoiceLines | rungisapps/metro_rungis_invoice_robot/models/stock_picking.py:143-171 | No two selected lines invoice the same sale line. Every selected line is the line for a sale line that has a moved product and a positive map entry. Every such sale line is invoiced. |
| InvoiceCreation.ActionCreateInvoice | rungisapps/metro_rungis_invoice_robot/models/stock_picking.py:115-173 | It raises exactly for an empty list, and creates nothing exactly when the unwrapped map is empty. Otherwise the invoice has the `_prepare_invoice` header and exactly the selected lines: distinct, sound and complete for the unwrapped map. |
| DraftRecovery.RobotDrafts | rungisapps/metro_rungis_invoice_robot/models/stock_picking.py:81-85 | The search yields exactly the robot-generated draft invoices of the company. |
| DraftRecovery.FirstFailure | rungisapps/metro_rungis_invoice_robot/models/stock_picking.py:87-95 | The loop's exit point: every outcome before it succeeds, the one at it fails, and it is the end exactly when all succeed. |
| DraftRecovery.Finalized | rungisapps/metro_rungis_invoice_robot/models/stock_picking.py:88-89 | Only drafts whose finalization succeeds are finalized. |
| DraftRecovery.FailedDraft | rungisapps/metro_rungis_invoice_robot/models/stock_picking.py:90-95 | The failing draft, which gets the message, is a failing draft of the list. There is none exactly when every draft succeeds. |
| DraftRecovery.FinalizeDrafts | rungisapps/metro_rungis_invoice_robot/models/stock_picking.py:87-96 | It returns true exactly when no draft fails. Exactly the drafts before the first failure leave draft state. Exactly the first failing draft gets the error message, naming its number and id. Nothing else changes. |
| DraftRecovery.ProcessDraftInvoices | rungisapps/metro_rungis_invoice_robot/models/stock_picking.py:67-96 | A falsy company id returns no value and changes nothing. Otherwise it returns whether every robot draft of the company was finalized, with the state and chatter effects of the recovery loop on those drafts and no change to any other invoice. |
| DraftRecovery.RobotDraftsInStates | rungisapps/metro_rungis_invoice_robot/models/stock_picking.py:81-85 | The draft search depends only on the states of the company's own invoices. |
| DraftRecovery.AfterOneMorePass | rungisapps/metro_rungis_invoice_robot/models/stock_picking.py:87-95 | One more recovery pass opens an invoice exactly when it finalizes it, and adds the error message exactly when the invoice is its failing draft. |
| DraftRecovery.UntouchedByPasses | rungisapps/metro_rungis_invoice_robot/models/stock_picking.py:87-95 | Recovery passes that do not go over an invoice leave its state and chatter as they were. |
| DraftRecovery.OnlyPass | rungisapps/metro_rungis_invoice_robot/models/stock_picking.py:87-95 | When only one of several passes goes over an invoice, the invoice ends up as that pass alone leaves it. |
| Robot.RobotCompanies | rungisapps/metro_rungis_invoice_robot/models/stock_picking.py:29 | It yields exactly the companies with the robot switched on. |
| Robot.SearchPickings | rungisapps/metro_rungis_invoice_robot/models/stock_picking.py:35-41 | It yields exactly the company's completed outgoing deliveries scheduled from the start date on whose flag is unset. |
| Robot.Partners | rungisapps/metro_rungis_invoice_robot/models/stock_picking.py:44 | Every set customer of a picking is listed. Only customers of the pickings are listed, none twice, and never the unset customer. |
| Robot.OfPartner | rungisapps/metro_rungis_invoice_robot/models/stock_picking.py:52 | It yields exactly the pickings of that customer. |
| Robot.ProcessPicking | rungisapps/metro_rungis_invoice_robot/models/stock_picking.py:57-62 | The picking ends up flagged either way. An invoice comes out exactly when its order has something left to invoice, and then it is the invoice for that picking's outstanding map. |
| Robot.OnceConcat | rungisapps/metro_rungis_invoice_robot/models/stock_picking.py:45-62 | Invoices of two groups of pickings with none in common still give each picking at most one invoice. |
| Robot.ProcessPartnerPickings | rungisapps/metro_rungis_invoice_robot/models/stock_picking.py:54-62 | A picking's flag becomes set exactly when it has a procurement group; pickings without one keep their flag. Every created invoice comes from a processed picking with something outstanding. Every such picking gets one, and no picking gets two. |
| Robot.ProcessBatch | rungisapps/metro_rungis_invoice_robot/models/stock_picking.py:44-62 | Going customer by customer, a picking becomes flagged exactly when it has a procurement group and a customer. A picking without a customer keeps its flag and gets no invoice. The invoices are sound and complete for the processed pickings, at most one per picking. |
| Robot.InvoiceDeliveries | rungisapps/metro_rungis_invoice_robot/models/stock_picking.py:35-62 | A picking ends up flagged exactly when it was flagged already or is a candidate of the company with a procurement group and a customer. The invoices are sound and complete for those pickings, at most one per picking. |
| Robot.ProcessCompany | rungisapps/metro_rungis_invoice_robot/models/stock_picking.py:31-62 | One company's turn. The company's robot drafts at the start of the turn are recovered: the state and chatter of each invoice follow the recovery loop over them. Invoices of other companies are untouched. The company's deliveries get flags and invoices as above, at most one invoice each. |
| Robot.DueInStep | rungisapps/metro_rungis_invoice_robot/models/stock_picking.py:31-41 | A delivery is due in the companies up to and including one more exactly when it is due in the earlier ones or in that company. |
| Robot.CreatedStep | rungisapps/metro_rungis_invoice_robot/models/stock_picking.py:31-62 | One more company's invoices, for pickings not flagged before its turn, keep the invoices created so far sound, complete and at most one per picking. |
| Robot.PassesStep | rungisapps/metro_rungis_invoice_robot/models/stock_picking.py:31-33 | One more company's recovery pass keeps every pass within its own company, and (with distinct ids) equal to the company's drafts at the start of the run. |
| Robot.TurnDrafts | rungisapps/metro_rungis_invoice_robot/models/stock_picking.py:31-33 | With distinct company ids, the drafts a company's turn finds are those it had at the start of the run: no earlier turn touched them. |
| Robot.CompanyTurn | rungisapps/metro_rungis_invoice_robot/models/stock_picking.py:31-62 | One turn of the company loop, stated against the records at the start of the run: flags, draft states and chatters, and the invoices created so far all keep their relation to that start. |
| Robot.StartState | rungisapps/metro_rungis_invoice_robot/models/stock_picking.py:28-31 | Before the first company, the flags, invoice states and chatters are those of the start of the run, and nothing is created yet. |
| Robot.RunCompanies | rungisapps/metro_rungis_invoice_robot/models/stock_picking.py:31-62 | The loop over the robot companies ends in the state `RunState` describes for all of them. |
| Robot.PassesOutcome | rungisapps/metro_rungis_invoice_robot/models/stock_picking.py:31-33 | An invoice of an unset or non-robot company is left as it was. With distinct ids, an invoice of a robot company ends up as the recovery of its company's drafts at the start of the run leaves it. |
| Robot.GenerateCheckInvoice | rungisapps/metro_rungis_invoice_robot/models/stock_picking.py:19-64 | Without a start date the run stops before any company: nothing is created, and no flag, invoice state or chatter changes. Otherwise a delivery becomes flagged exactly when it is flagged already or due in a robot company. Invoices of non-robot companies are untouched. With distinct company ids, each robot company's draft invoices at the start of the run are recovered: those finalized are open, and the first failing one gets the error message. Every created invoice is the invoice of a due delivery with something outstanding, every such delivery gets one, and none gets two. |
| Robot.RunTwice | rungisapps/metro_rungis_invoice_robot/models/stock_picking.py:38-59 | A second run over the same records with the same start date creates no invoice: no delivery is invoiced twice. |
| Scenarios.OnlyLine | rungisapps/metro_rungis_invoice_robot/models/stock_picking.py:144-171 | With one sale line and one move line of its product, every selected line is the line for that sale line. |
| Scenarios.SomeLine | rungisapps/metro_rungis_invoice_robot/models/stock_picking.py:144-171 | With one sale line to invoice and a move line of its product, at least one line is selected. |
| Scenarios.SingleLine | rungisapps/metro_rungis_invoice_robot/models/stock_picking.py:148-171 | Selected lines that all invoice the same sale line, none twice, are at most one: with `OnlyLine` and `SomeLine` the invoice of the one-line delivery has exactly one line. |

## Left out

- The ORM is not modelled as a query engine. `search`, `filtered`, `mapped` and `ensure_one` are sequences of records and functions over them, in record-store order. The default sort order of the searches is not modelled. `mapped("partner_id")` is `Partners`, which drops the unset customer as `mapped` drops an empty reference.
- The sale-line search by `order_id = origin` (line 145) is modelled as the lines of the picking's own sale order. A picking whose origin names a different order is not modelled.
- Record creation and commit: the invoice and its lines are returned as values (`CreatedInvoice`), not added to the invoice records. The `commit` at line 63 is left out because it is a transaction side effect.
- The `@job` queue decorator, logging, and the exception text in the chatter message are left out; the message is kept as `FinalizeFailed(number, id)`.
- Robot.GenerateCheckInvoice: does not model the hook `_pre_process_invoice` on a newly created invoice (line 64), because the hook is external. An exception raised there would end the run. The invoice would then stay in draft for the next run's recovery.
- The hook `_pre_process_invoice` is modelled only by its success or failure on each invoice, because its body is in another module.
- Income-account and fiscal-position account mapping (lines 129–141) are left out: they are lookups into external records and `map_account` is foreign code. The lines' `account_id`, `name`, `origin`, currency, analytic account and tags, and display type are not modelled for the same reason.
- The journal lookup (lines 181–187) is left out for the same reason. So are the header's receivable account and its user, team and transaction fields.
- The invoice partner's sub-contact lookup (lines 48–50) is left out, because its result is never used.
- Quantities are reals, not floating point numbers. Only subtraction and comparison with zero occur.
- `_is_cw_product()` is the line's `isCw` flag.
- Date parsing with `strptime` is the optional start date. The search's string comparison of dates is an integer comparison.
- The recomputation of the sale lines' invoiced quantities after invoice lines are created is left out: it is outside this file.
- Robot.GenerateCheckInvoice: its soundness, completeness and invoice contents match the system only when no two due deliveries share a sale order, because the model reads every sale line's `qty_invoiced` as it was at the start of the run. In the system, once the first delivery's invoice line links a sale line (line 169), `qty_invoiced` is recomputed, and the second delivery's call at line 57 sees the new value. The model invoices both deliveries from the old quantities.
- Robot.GenerateCheckInvoice: states the recovery of the robot companies' drafts only when the companies' ids are distinct, because with a repeated id a later turn finds drafts changed by an earlier one. Record ids are distinct, so this case does not arise in the system. Without that condition the contract still says that invoices of non-robot companies are untouched.
- rungisapps/account_invoice_download/__manifest__.py is not part of this model: it is a module manifest with no logic.
