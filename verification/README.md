# Workshop backend: a Dafny model

The backend runs vehicle workshops that share one database: stock, estimates and their approval by
customers, the life of a job, logins, and the import of bookings. Each part of the model follows one
group of services. It has a *specification module*, in which the tables are values and every service
call is a function from the tables to the tables or to the exception it throws; a *proof module* with
the results over single calls and over runs; and a *services module* with a class whose fields are the
tables and whose methods go through the steps of the source, loops included. Every method is proved to
be the function of the specification, so what is proved about runs holds of the services. Beside the
results over runs, one module of each part says of every call when it is accepted and what it writes, in
terms of the tables and of what the client sent, without the helper functions of the specification
(`TenantAnswers`, `StockCalls`, `QuoteColumns`, `PortalAnswers`, `LifecycleFields`, `WorkflowFields`,
`SessionFields`, `BookingColumns`).

| files | what they model |
|---|---|
| `Tenant`, `TenantProofs`, `TenantAnswers` | the Prisma extension that rewrites every query so that workshops share one store |
| `StockLedger`, `StockProofs`, `StockRuns`, `StockLimits`, `StockCalls`, `StockServices` | inventory rows and the movement log behind them, job parts, purchase orders |
| `Quotes`, `QuoteBulk`, `QuoteMoney`, `QuoteProtocol`, `QuoteColumns`, `QuoteServices` | estimate lines, the bulk save, portal links, customer decisions and deferred work |
| `Portal`, `PortalProofs`, `PortalAnswers`, `PortalServices` | grouping, totals and decision state of the customer portal, released snapshots |
| `JobStatus`, `Lifecycle`, `LifecycleProofs`, `LifecycleRuns`, `LifecycleFields`, `LifecycleServices` | the status of a job, its timestamps and its history |
| `Workflow`, `WorkflowProofs`, `WorkflowFields` | the normaliser for workflow stages and the stage lookups |
| `Sessions`, `SessionProofs`, `SessionFields`, `SessionServices` | login, refresh-token rotation, lockout, password changes |
| `BookingImport`, `BookingProofs`, `BookingColumns` | the booking import |
| `Wrappers`, `Sequences`, `Sorting`, `Text` | options, queries on tables, the stable sort, string operations |

Each service call is one atomic step. Quantities are `int`, money and rates are `real`, times are `int`,
and ids that the source draws from `uuid()` are parameters or numbered in order of issue. Every lemma
carries `{:induction false}`, so each induction is written out.

Where a promise does not hold of every call, the model keeps the code as it is and the result says
exactly when it holds:

- Stock is never promised twice exactly when outward adjustments and negative returns stay within what
  is available (`StockLimits.NeverOverPromised`); `StockLimits.AdjustmentCanOverPromise` is a run that breaks it.
- `received` on a purchase order means every item is full exactly when nobody sets that status by hand
  on a short order (`StockLimits.ReceivedMeansFullRun`, `StockLimits.ReceivedWithoutReceipt`).
- Saving the same estimate twice is the same as saving it once exactly when no new line was sent a rate
  of zero or less other than the default (`QuoteBulk.BulkIdempotent`, `QuoteBulk.ZeroRateIsSavedTwice`); a
  third save never changes anything.
- A patch keeps a job consistent exactly when the status it asks for is of the phase that the job's
  timestamps belong to and its workshop stage comes from that status, and a portal move exactly when the
  car has arrived and is not yet ready (`LifecycleRuns.RunExact`); `LifecycleRuns.PatchReopensClosedJob`
  and `LifecycleRuns.PortalLeavesCompleted` are runs that break it.
- A closed or no-show job stays where it is exactly when no accepted patch of it asks for another status
  (`LifecycleRuns.EndsExact`); `LifecycleRuns.NoShowComesBack` is a run that brings one back to booked.
- A job stays on a lane of its status exactly when each patch puts its card on a stage that stands for the
  status asked for, the board has a stage for a job that becomes a no-show, and each board that is saved
  has an active stage with the card's key that stands for the job's status (`LifecycleRuns.LaneRunExact`);
  `LifecycleRuns.DefaultBoardLosesCard` and `LifecycleRuns.SavedBoardLosesCard` take a new job off its lane.
- A job's history replays to its status exactly when neither the no-show task marked the job nor an
  import created it (`LifecycleRuns.HistoryReplays`, `LifecycleRuns.NoShowLeavesNoRow`).
- A normalised stage list survives saving and loading exactly when no key ends in an underscore and no
  label is empty or ends in white space (`WorkflowProofs.SaveThenLoad`): the cut at 80 characters comes
  after the trimming, and an empty label is filled in from the key (`WorkflowProofs.BlankTitleIsLost`).
- A workshop's operation is private exactly when a create takes no id of another workshop's row, an
  update that reaches a row leaves its workshop alone, and a `findUnique` selects the workshop column or
  meets no other workshop's row (`TenantProofs.PrivateIffIsolated`);
  `TenantProofs.SelectShowsForeignRow` is the lookup that shows one.
- An import can be run again without creating a job exactly when every row is ignored, fails its date, or
  carries a number or a VIN, as long as no row without a number lists a VIN with the plate of a vehicle
  that has another VIN (`BookingProofs.RerunExact`, `BookingProofs.PlateMisleads`).
- Replaying a used refresh token ends the user's sessions exactly when neither a login of the user nor
  the purge has deleted the token's row (`SessionProofs.ReplayExact`, `SessionProofs.LoginHidesReplay`).
- The estimate screen and the portal group lines alike exactly when the quote group of a line that also
  has an inspection response holds the same lines as that response (`PortalProofs.GroupingsAgree`,
  `PortalProofs.QuoteGroupSplits`).

Three comments of the source say more than the code does. `decideFromPortal` calls a decision final, but
it compares a submission with earlier ones only; repeats inside one submission are stopped by the unique
index on (token, line). `update` of jobs says that invalid transitions are still rejected, but a workflow
stage or a workshop stage in the same patch replaces the status that was checked. `validateUser` clears
the counter of an expired lock, but `login` counts on from the record it read before, so one wrong
password locks the account again.

## Model

| member | source | states |
|---|---|---|
| Tenant.Client.Intercept | src/prisma/prisma-tenant.extension.ts:56-117 | Overwriting the arguments in place and running the query gives the store and the answer of the specification, for every model, operation and context |
| Tenant.Client.StampAll | src/prisma/prisma-tenant.extension.ts:102-108 | `createMany` stamps every row with the workshop and leaves the other arguments alone |
| TenantProofs.PrivateIffIsolated | src/prisma/prisma-tenant.extension.ts:80-114 | One scoped operation answers its workshop as if it had the table to itself, leaves every other workshop's rows alone and orphans none, if and only if it is isolated |
| TenantProofs.FindUniqueExact | src/prisma/prisma-tenant.extension.ts:80-86 | A `findUnique` is private if and only if it selects `workshop_id` or meets no row of another workshop |
| TenantProofs.SelectShowsForeignRow | src/prisma/prisma-tenant.extension.ts:80-86 | With a `select` of `id` and `name` the check after the query finds no workshop, and another workshop's row is answered |
| TenantProofs.UpdateMoves | src/prisma/prisma-tenant.extension.ts:110-114 | An update that hands a row to another workshop, or to none, is visible to somebody |
| TenantProofs.NonInterference | src/prisma/prisma-tenant.extension.ts:56-117 | Over every interleaving of isolated operations, by platform admins and others, inside workshops and outside, the answers to a workshop and its final rows are those of its own operations on its own rows |
| TenantProofs.ScopingIsTransparent | src/prisma/prisma-tenant.extension.ts:88-114 | On a table with rows of one workshop only, scoping changes neither the result nor the table |
| TenantProofs.NoWorkshopSeesNothing | src/prisma/prisma-tenant.extension.ts:67-78 | Over any run without a workshop and without platform rights nothing is written, and the answers, those of `findUnique` excepted, are the same on every store |
| TenantAnswers.AdminsAreScopedToo | src/prisma/prisma-tenant.extension.ts:57-92 | Inside a workshop a platform admin is served as anybody else, on a scoped model as the workshop and on any other from the whole table |
| TenantAnswers.OutsideExact | src/prisma/prisma-tenant.extension.ts:63-78 | Outside any workshop no table changes; an admin reads the whole table and everybody may look a row up by its id, other reads see nothing, and every write is refused |
| TenantAnswers.ScopedExact | src/prisma/prisma-tenant.extension.ts:88-114 | Reads, updates and deletes of a workshop are answered from exactly its own rows that meet the other conditions, and exactly these are overwritten or deleted |
| TenantAnswers.CreateExact | src/prisma/prisma-tenant.extension.ts:94-108 | A create is refused exactly when an id would occur twice; otherwise each row is stored as sent, owned by the caller |
| TenantAnswers.LookupExact | src/prisma/prisma-tenant.extension.ts:80-86 | `findUnique` answers the row it is asked for unless the answer itself shows another workshop |
| StockServices.Services.CreatePart | src/parts/parts.service.ts:15-48 | A new part gets a zero row in every warehouse |
| StockServices.Services.AdjustStock | src/inventory/inventory.service.ts:34-99 | The adjustment is the specified transaction, or throws and leaves everything as it was |
| StockServices.Services.TransferStock | src/inventory/inventory.service.ts:102-190 | The transfer is the specified transaction over both rows and both movements, or leaves no trace |
| StockServices.Services.ReserveForJob | src/job-parts/job-parts.service.ts:41-154 | A job part is added as a memo, or nothing changes |
| StockServices.Services.ReserveExistingForJob | src/job-parts/job-parts.service.ts:156-218 | A memo becomes a reservation within available stock, or nothing changes |
| StockServices.Services.ConsumeForJob | src/job-parts/job-parts.service.ts:220-292 | Consumption lowers on-hand and reserved and ends the job part, or nothing changes |
| StockServices.Services.ReturnForJob | src/job-parts/job-parts.service.ts:294-356 | A return lowers reserved and ends the job part, or nothing changes |
| StockServices.Services.CancelReservation | src/job-parts/job-parts.service.ts:358-425 | Cancelling gives the whole reservation back, or nothing changes |
| StockServices.Services.CreateOrder | src/purchase-orders/purchase-orders.service.ts:14-41 | The loop over the items builds the specified rows and their total cost |
| StockServices.Services.UpdateStatus | src/purchase-orders/purchase-orders.service.ts:75-95 | Only the listed moves are accepted, receipts or not |
| StockServices.Services.ReceiveItem | src/purchase-orders/purchase-orders.service.ts:97-194 | A receipt writes item, stock row, movement and order status as specified, or nothing |
| StockServices.Services.Cancel | src/purchase-orders/purchase-orders.service.ts:196-207 | Any order but a received one can be cancelled, whatever it has received; stock and movements stay |
| StockRuns.RunInv | src/inventory/inventory.service.ts:34-190 | Every run of the twelve operations keeps the ledger invariant |
| StockRuns.LedgerReplay | src/inventory/inventory.service.ts:60-95 | After every run each (part, warehouse) has at most one row, its quantities are the signed folds of the movement log, and available is on-hand less reserved |
| StockRuns.ReservationAccounting | src/job-parts/job-parts.service.ts:185-421 | After every run reserved is what the job parts hold back and never negative; it is the total of the reserved parts if and only if every ended reservation moved in full; a reserved part has its part, warehouse and row |
| StockRuns.StockConserved | src/job-parts/job-parts.service.ts:253-282 | Over all warehouses a part's on-hand is purchases and adjustments in, less adjustments out and consumption |
| StockRuns.TransferConserves | src/inventory/inventory.service.ts:120-186 | A transfer keeps every part's total on-hand |
| StockRuns.CreatePartKeepsInv | src/parts/parts.service.ts:31-48 | The zero rows of a new part change no fold and no total |
| StockLimits.StepShortage | src/inventory/inventory.service.ts:64-67 | From covered stock, one call leaves it covered if and only if it stays within available stock |
| StockLimits.NeverOverPromised | src/inventory/inventory.service.ts:64-67 | On-hand covers reserved on every row throughout a run if and only if every call stays within available stock |
| StockLimits.AdjustmentCanOverPromise | src/inventory/inventory.service.ts:64-67 | Adjusting out reserved stock drives available below zero |
| StockLimits.OrderReceipts | src/purchase-orders/purchase-orders.service.ts:117-170 | In every run received lies between zero and ordered per item, and an order's receipts are its purchase movements |
| StockLimits.FinalOrders | src/purchase-orders/purchase-orders.service.ts:79-107 | A received or cancelled order never changes status or receives again, in any run |
| StockLimits.ReceiptStatus | src/purchase-orders/purchase-orders.service.ts:131-190 | After a receipt only that item has grown, and the order is received exactly when every item is full and partially received otherwise |
| StockLimits.ReceivedMeansFullStep | src/purchase-orders/purchase-orders.service.ts:79-88 | One call keeps "received means full" if and only if it does not declare a short order received |
| StockLimits.ReceivedMeansFullRun | src/purchase-orders/purchase-orders.service.ts:79-88 | A run keeps it throughout if and only if no call declares a short order received |
| StockLimits.ReceivedWithoutReceipt | src/purchase-orders/purchase-orders.service.ts:79-88 | A new order that is declared ordered and then received breaks it |
| StockCalls.AcceptedExact | src/job-parts/job-parts.service.ts:156-425 | In sound tables each of the twelve calls is accepted if and only if what it names is there and in a state for it, and it asks for no more than there is |
| StockCalls.JobCallAccepted | src/job-parts/job-parts.service.ts:220-254 | The same for reserving, consuming, returning and cancelling a job part |
| StockCalls.StockCallAccepted | src/inventory/inventory.service.ts:34-135 | The same for adjustments, transfers, new parts and memos |
| StockCalls.OrderAccepted | src/purchase-orders/purchase-orders.service.ts:14-41 | An order is accepted if and only if its id and the ids of its items are free and each item is of a known part and at least one |
| StockCalls.ReceiptAccepted | src/purchase-orders/purchase-orders.service.ts:97-130 | A receipt is accepted if and only if it stays within what is ordered, the order is open for receipts, and there is a warehouse for it |
| StockCalls.ReservedCanEnd | src/job-parts/job-parts.service.ts:232-240 | A reserved part can always be consumed or returned in full, and cancelled |
| StockCalls.WarehouseChosen | src/purchase-orders/purchase-orders.service.ts:108-121 | A receipt goes where it is asked to, else to a default warehouse, else to the first |
| StockCalls.LogWritten | src/job-parts/job-parts.service.ts:256-425 | Every accepted call logs exactly its movements, for the quantity it asks for, and a refused one nothing |
| StockCalls.PartsWritten | src/job-parts/job-parts.service.ts:185-421 | A call gives the job part that it names its new status, and writes no other part and no other column |
| StockCalls.OrdersWritten | src/purchase-orders/purchase-orders.service.ts:75-207 | A move, receipt or cancellation writes the status of the order it is about, and no other order |
| StockCalls.CatalogWritten | src/parts/parts.service.ts:15-48 | A new part has a row in every warehouse, and no row and no log entry is changed |
| StockCalls.OrderWritten | src/purchase-orders/purchase-orders.service.ts:14-41 | A new order is a draft with the cost of its items, left open when it is zero, and nothing received |
| StockCalls.NamedExact | src/job-parts/job-parts.service.ts:222-223 | What a call looks up by its id is the row with that id, and nothing only when there is none |
| StockCalls.RefusedExact | src/job-parts/job-parts.service.ts:222-254 | Every refused call carries the error of the first thing that is wrong with it |
| QuoteServices.Services.Create | src/estimates/estimates.service.ts:60-89 | A new line is priced and taxed as specified |
| QuoteServices.Services.Update | src/estimates/estimates.service.ts:151-171 | The old line goes to the history before the patch is written and repriced |
| QuoteServices.Services.Remove | src/estimates/estimates.service.ts:173-176 | A line that another table refers to cannot be removed |
| QuoteServices.Services.EnsureGroups | src/estimates/estimates.service.ts:203-212 | Named groups that do not exist are created |
| QuoteServices.Services.SaveLines | src/estimates/estimates.service.ts:214-257 | The loop upserts the list in order, or stops at the first row that cannot be written |
| QuoteServices.Services.RetireStale | src/estimates/estimates.service.ts:259-291 | The loop detaches referenced stale lines at increasing positions and deletes the others |
| QuoteServices.Services.BulkReplace | src/estimates/estimates.service.ts:183-299 | The whole save is the specified transaction, or leaves lines and groups as they were |
| QuoteServices.Services.DropConcern | src/jobs/jobs.service.ts:287-293 | Deleting a concern takes it off its lines |
| QuoteServices.Services.DropGroup | src/estimates/estimates.service.ts:315-324 | Deleting a quote group detaches its lines from it |
| QuoteServices.Services.LinkJobPart | src/job-parts/job-parts.service.ts:85-109 | A part line of the job joins the concern of its job part, unless another job part has it |
| QuoteServices.Services.IssueLink | src/authorisation/authorisation.service.ts:100-126 | A new link for a job, refused when an approval request has no lines |
| QuoteServices.Services.DecideFromPortal | src/authorisation/authorisation.service.ts:841-932 | A submission is recorded whole or not at all, after the link, line and earlier-decision checks |
| QuoteServices.Services.RecordDecisions | src/authorisation/authorisation.service.ts:876-913 | The loop records decisions in order with one follow-up per declined or deferred line |
| QuoteServices.Services.ResetConcernApproval | src/authorisation/authorisation.service.ts:392-408 | A reset deletes the decisions on the concern's lines |
| QuoteBulk.BulkExact | src/estimates/estimates.service.ts:183-299 | With distinct ids a save succeeds if and only if every listed line was on the job or brings a free id; it leaves the listed rows, detaches referenced stale lines at increasing positions from n, deletes the others, and touches no other line or job |
| QuoteBulk.ReadBack | src/estimates/estimates.service.ts:227-299 | Reading the job back by `sort_order` gives the incoming list in order, numbered 0 to n-1 |
| QuoteBulk.BulkIdempotent | src/estimates/estimates.service.ts:217-221 | Saving the same named list again is accepted and changes nothing if and only if every line keeps its rate |
| QuoteBulk.BulkSettles | src/estimates/estimates.service.ts:217-221 | From the second save on, saving again changes nothing |
| QuoteBulk.ZeroRateIsSavedTwice | src/estimates/estimates.service.ts:219-221 | A new line with a zero rate is the case in which it does |
| QuoteMoney.RunPriced | src/estimates/estimates.service.ts:61-68 | In every run of every operation that writes lines, each stored total and tax amount is the one that the stored quantity, price, discount and rate give |
| QuoteColumns.CreateWritten | src/estimates/estimates.service.ts:60-89 | A new line has the columns that were sent, or their defaults, under its id |
| QuoteColumns.UpdateWritten | src/estimates/estimates.service.ts:151-171 | The columns of a patch replace the stored ones, the others stay, and the old line goes to the history |
| QuoteColumns.RemoveWritten | src/estimates/estimates.service.ts:173-176 | A line is removed if and only if it is there and nothing refers to it |
| QuoteColumns.BulkColumns | src/estimates/estimates.service.ts:214-257 | After an accepted save the line under the saved id of each listed line has the quantity, price, discount, kind, texts and references that were sent, or their defaults, and its position |
| QuoteColumns.BulkGroups | src/estimates/estimates.service.ts:199-208 | A save writes lines and groups only, and adds exactly the groups that are named and missing |
| QuoteColumns.ConcernWritten | src/jobs/jobs.service.ts:287-293 | Deleting a concern clears it on every line that has it and writes nothing else |
| QuoteColumns.GroupWritten | src/estimates/estimates.service.ts:315-324 | The same for a quote group |
| QuoteColumns.LinkWritten | src/job-parts/job-parts.service.ts:85-109 | Linking is accepted for a part line of the job that is free and of no other concern, and writes its concern only |
| QuoteColumns.PartLineWritten | src/job-parts/job-parts.service.ts:110-133 | A job part without a line gets one with its name, number, quantity and price |
| QuoteColumns.CopyWritten | src/deferred/deferred.service.ts:126-175 | Booking deferred work copies its line to the new job without its groups |
| QuoteColumns.LinkIssued | src/authorisation/authorisation.service.ts:100-126 | A link is issued if and only if the job is there, and for an approval request has lines |
| QuoteColumns.SubmissionWritten | src/authorisation/authorisation.service.ts:876-913 | An accepted submission adds its decisions in order at the time of the call, and a follow-up worth its line for each declined or deferred line that has none |
| QuoteColumns.ResetWritten | src/authorisation/authorisation.service.ts:392-408 | A reset is accepted if and only if the concern is of the job; exactly the decisions on lines of other concerns stay, and nothing else is written |
| QuoteColumns.RefusedExact | src/authorisation/authorisation.service.ts:841-932 | Every refused call on lines, groups, links and decisions carries the error of its cause |
| QuoteProtocol.StepInv | src/authorisation/authorisation.service.ts:841-932 | Every call on the quote tables, with any ids, keeps the protocol invariant |
| QuoteProtocol.ReachableQuotes | src/estimates/estimates.service.ts:259-291 | In every reachable state no decision, follow-up or history row points to a missing line, a line holds at most one decision over all links, every declined or deferred decision has its follow-up, no (job, line) has two, and detached lines are anchored |
| QuoteProtocol.DecideInv | src/authorisation/authorisation.service.ts:841-914 | An accepted submission appends exactly its own decisions in order and keeps the invariant |
| QuoteProtocol.DecideExact | src/authorisation/authorisation.service.ts:841-887 | In reachable states a submission is accepted if and only if its link is valid, its lines are on the job, none is named twice, and no link has decided any of them |
| QuoteProtocol.ResetExact | src/authorisation/authorisation.service.ts:398-408 | A reset removes exactly the decisions on lines of that concern |
| QuoteProtocol.DecisionsAreFinal | src/authorisation/authorisation.service.ts:853-865 | Any run without resets only appends to the decisions |
| QuoteProtocol.DetachedForever | src/estimates/estimates.service.ts:271-284 | A detached line never disappears and never rejoins a job |
| QuoteProtocol.RepeatsAreRejected | prisma/schema.prisma:310 | A submission that names a line twice is rejected whole |
| PortalServices.GroupLines | src/authorisation/authorisation.service.ts:626-637 | The loop over the lines gives the keys in order of first mention, the lines of each key and the ungrouped ones |
| PortalServices.BuildSections | src/authorisation/authorisation.service.ts:638-718 | One section per key, one per concern without a line and the general one, in rank order |
| PortalServices.PortalPayload.Load | src/authorisation/authorisation.service.ts:626-790 | The live portal is the specified payload |
| PortalServices.PortalPayload.ApplyImmutableDecisions | src/authorisation/authorisation.service.ts:800-839 | Marking the payload in place gives the specified overlay |
| PortalServices.MarkSection | src/authorisation/authorisation.service.ts:728-746 | Flags, summary and lock of a section from the decisions on its lines |
| PortalServices.ImmutableLineDecisions | src/authorisation/authorisation.service.ts:513-525 | Sorting by time and keeping the first row per line is the specified selection |
| PortalServices.AuthStatusCounts | src/authorisation/authorisation.service.ts:265-284 | The scan's counts are as specified and add up to the number of lines |
| PortalProofs.Partition | src/authorisation/authorisation.service.ts:626-705 | Every estimate line lands in exactly one section |
| PortalProofs.SectionsOrdered | src/authorisation/authorisation.service.ts:647-718 | Sections come in rank order, and each holds exactly its lines, sorted by type, with their total |
| PortalProofs.OneSectionPerKey | src/authorisation/authorisation.service.ts:626-705 | Every key that a line mentions and every concern has exactly one section, the ungrouped lines one more, and there is no other |
| PortalProofs.TotalsAddUp | src/authorisation/authorisation.service.ts:664-790 | The section totals add up to the grand total |
| PortalProofs.OverlayIsRecomputation | src/authorisation/authorisation.service.ts:800-839 | A snapshot of any lines, released with any decisions, overlaid with later decisions is the portal built live with those |
| PortalProofs.OverlaysReplace | src/authorisation/authorisation.service.ts:800-839 | Only the last overlay matters |
| PortalProofs.FirstDecisionWins | src/authorisation/authorisation.service.ts:513-525 | The minimum scan over all links and sort-then-first pick the same decision for an active line, in whatever order they meet the rows, when the earliest time is not shared |
| PortalProofs.LaterNeverWins | src/authorisation/authorisation.service.ts:513-525 | Later decisions never change either pick |
| PortalProofs.CountsAddUp | src/authorisation/authorisation.service.ts:278-284 | Approved, declined, deferred and pending lines are all the lines |
| PortalProofs.ReachablePicks | src/authorisation/authorisation.service.ts:513-525 | In every reachable state both report the one decision of the line |
| PortalProofs.GroupingsAgree | src/estimates/estimates.service.ts:30-36 | The estimate screen and the portal group the lines alike if and only if, for each line with a quote group and a response and no concern, the two hold the same lines without a concern |
| PortalProofs.QuoteGroupSplits | src/estimates/estimates.service.ts:30-36 | Two lines of one quote group, one of them from an inspection, are together in the portal and apart on the screen |
| PortalProofs.SameSummaries | src/estimates/estimates.service.ts:37-48 | Where they group alike, a line has the same summary on both if and only if deferred does not stand beside only approved or only declined lines |
| PortalProofs.LockedIsFinal | src/authorisation/authorisation.service.ts:728-746 | A section is locked if and only if it has lines and none is actionable, and then later decisions change neither its flags nor its summary |
| PortalAnswers.AmountsExact | src/authorisation/authorisation.service.ts:749-790 | With at most one decision per line the approved total is the total of the approved lines, the grand total that of all lines, and a line is actionable exactly when one is undecided; the overlay answers the same |
| PortalAnswers.AmountsOfRows | src/authorisation/authorisation.service.ts:800-838 | The same for whatever decisions are stored, the first of each line counting |
| PortalAnswers.NextDecision | src/authorisation/authorisation.service.ts:832-837 | Approving a line raises the approved total by that line, declining or deferring it leaves it, live and overlaid |
| PortalAnswers.TotalSnoc | src/authorisation/authorisation.service.ts:790 | Totals add up line totals, line by line |
| PortalAnswers.CountsExact | src/authorisation/authorisation.service.ts:265-284 | The approved, declined and deferred counts are the numbers of lines whose first decision is that, and pending is the number of undecided lines |
| PortalAnswers.SummaryExact | src/authorisation/authorisation.service.ts:728-745 | A section is mixed, approved, declined or pending exactly as its lines are decided |
| PortalAnswers.SectionsDescribed | src/authorisation/authorisation.service.ts:640-718 | Urgent sections come first, inside a section labour comes before parts and parts before sublet work, and severity and origin of a section are those of its concern, finding or first line |
| LifecycleServices.Services.LoadStages | src/admin/workflow.service.ts:21-29 | The stages in force are those that the workflow service loads |
| LifecycleServices.Services.CreateJob | src/jobs/jobs.service.ts:59-106 | A new job is booked, with its first history row |
| LifecycleServices.Services.ChangeStatus | src/jobs/jobs.service.ts:372-440 | The fields built up step by step are the specified entry into the status |
| LifecycleServices.Services.UpdateJob | src/jobs/jobs.service.ts:295-370 | The patch, with the overrides by workflow stage, workshop stage and parts, is as specified |
| LifecycleServices.Services.UnassignTechnician | src/jobs/jobs.service.ts:442-450 | Taking the technician off sends work in progress back to the queue |
| LifecycleServices.Services.ArchiveJob | src/jobs/jobs.service.ts:461-468 | Exactly live closed jobs are archived, and nothing else of the job or its history changes |
| LifecycleServices.Services.UnarchiveJob | src/jobs/jobs.service.ts:470-478 | Exactly archived jobs are unarchived, and nothing else changes |
| LifecycleServices.Services.CreateInspection | src/inspections/inspections.service.ts:18-57 | One inspection per job; the first moves a booked job to checking |
| LifecycleServices.Services.CreateChecklist | src/qc-checklists/qc-checklists.service.ts:18-55 | One checklist per job; the first moves work to quality check |
| LifecycleServices.Services.SubmitChecklist | src/qc-checklists/qc-checklists.service.ts:190-243 | A pass moves the job to ready, anything else back to work |
| LifecycleServices.Services.MoveJobToEstimateSent | src/authorisation/authorisation.service.ts:111-141 | An approval request for a job with estimate lines moves it to estimate sent while it is open |
| LifecycleServices.Services.MoveJobToApproved | src/authorisation/authorisation.service.ts:431-459 | A portal decision moves an open job to approved, with a row unless it was there |
| LifecycleServices.Services.MarkBookedAsNoShow | src/scheduler/scheduler.service.ts:69-82 | The task marks exactly the booked jobs that have not arrived and writes no history |
| LifecycleProofs.PatchedConsistent | src/jobs/jobs.service.ts:301-333 | An accepted patch keeps a job consistent if and only if the status it asks for is of the job's phase and fits where its workshop stage comes from |
| LifecycleProofs.StepExact | src/jobs/jobs.service.ts:295-468 | Every call keeps all jobs consistent if and only if its guard holds |
| LifecycleRuns.RunExact | src/jobs/jobs.service.ts:295-468 | A run does so throughout if and only if each call is safe when made |
| LifecycleRuns.UnguardedRunInv | src/jobs/jobs.service.ts:372-468 | Runs of create, transition, inspection, QC, archive and the scheduled tasks need no guard |
| LifecycleRuns.EndsExact | src/jobs/jobs.service.ts:301-366 | A run leaves a closed or no-show job where it is throughout if and only if no accepted patch of that job asks for another status |
| LifecycleRuns.NoShowComesBack | src/jobs/jobs.service.ts:311-317 | A patch that names the booked stage books a no-show again, in a run whose calls are all safe |
| LifecycleRuns.DefaultBoardBooksAgain | src/jobs/jobs.service.ts:311-317 | On the default board the key `booked` does that |
| LifecycleRuns.BookedAgainExact | src/jobs/jobs.state-machine.ts:33-51 | A job that has left booked is booked again in a run if and only if an accepted patch asks for it |
| LifecycleRuns.PatchReopensClosedJob | src/jobs/jobs.service.ts:318-328 | From an empty shop, closing a job and patching its workshop stage leaves it in progress with its invoice date |
| LifecycleRuns.PortalLeavesCompleted | src/authorisation/authorisation.service.ts:431-447 | From an empty shop, a customer decision on a job that has become ready leaves it approved with its completion date |
| LifecycleProofs.LaneFollowsMove | src/jobs/jobs.service.ts:508-518 | With accepted stages, a job moved by a transition, an inspection, QC or the portal lands on an active stage of its status, or of its lane |
| LifecycleProofs.PatchedLane | src/jobs/jobs.service.ts:311-334 | An accepted patch leaves the job on a lane of its status if and only if the stage it puts the card on stands for the status it asks for |
| LifecycleProofs.CreatedLane | src/jobs/jobs.service.ts:75-97 | A created job is on its lane if and only if the board has an active stage `booked` that stands for booked jobs; an imported one never is |
| LifecycleRuns.LaneRunExact | src/admin/workflow.service.ts:31-45 | A job stays on a lane of its status throughout a run, in which boards may be saved and settings written, if and only if each patch puts the card on a fitting stage, a no-show has a stage to go to, and each new board has an active stage with the card's key that fits |
| LifecycleRuns.LaneFromCreation | src/admin/workflow.service.ts:31-45 | The same from the creation of the job on |
| LifecycleRuns.DefaultBoardLosesCard | src/jobs/jobs.service.ts:318-328 | On the default board a patch of the workshop stage takes a new job off its lane |
| LifecycleRuns.SavedBoardLosesCard | src/admin/workflow.service.ts:31-45 | Saving a board without the stage `booked` takes every new job off its lane |
| LifecycleRuns.HistoryReplays | src/jobs/jobs.service.ts:423-438 | After any run a job's rows chain from its creation to its current status if and only if no unrecorded write touched it |
| LifecycleRuns.HistoryFromEmpty | src/scheduler/scheduler.service.ts:73-82 | The same from an empty shop |
| LifecycleRuns.NoShowLeavesNoRow | src/scheduler/scheduler.service.ts:73-82 | A job that is created and missed has a history that does not replay |
| LifecycleFields.AcceptedExact | src/jobs/jobs.service.ts:295-478 | Each call is accepted if and only if the job or checklist it names is there and in a state for it, and a refusal carries the error of its cause |
| LifecycleFields.JobsAdded | src/jobs/jobs.service.ts:59-106 | A job is created booked, without times, by the two kinds of creation only, and no job disappears |
| LifecycleFields.MovesExact | src/jobs/jobs.state-machine.ts:33-51 | The statuses from which each status can be entered; every job can be closed unless it is in quality check or has ended |
| LifecycleFields.PatchWrites | src/jobs/jobs.service.ts:301-366 | An accepted patch writes status, workshop stage, card and parts, and none of the times |
| LifecycleFields.StatusWritten | src/jobs/jobs.service.ts:372-440 | The status that each call gives to a job |
| LifecycleFields.ArrivalWritten | src/jobs/jobs.service.ts:387-390 | An arrival once set stays, and the first move to checking sets it to the time of the call |
| LifecycleFields.ArrivalOverRuns | src/jobs/jobs.service.ts:389 | Over every run the arrival of a job is the one it had, or else the time of its first move to checking |
| LifecycleFields.CompletionWritten | src/jobs/jobs.service.ts:405-419 | Becoming ready sets the completion to the time of the call, and leaving ready for anything but closed takes it away |
| LifecycleFields.InvoiceWritten | src/jobs/jobs.service.ts:406-413 | Only a transition to closed writes the invoice date, to the time of the call |
| LifecycleFields.ArchiveWritten | src/jobs/jobs.service.ts:461-478 | Who sets and clears the archive date |
| LifecycleFields.DeletionWritten | src/jobs/jobs.service.ts:480-500 | A job is deleted by its removal or with all booked jobs, and stays deleted |
| LifecycleFields.StageWritten | src/jobs/jobs.service.ts:385-403 | What each call makes of the workshop stage |
| LifecycleFields.PartsWritten | src/jobs/jobs.service.ts:393-400 | Waiting for parts orders them, and going back to work uses those that are ready |
| LifecycleFields.KeyWritten | src/jobs/jobs.service.ts:508-518 | A card is put where the patch says or on the default stage of the new status; only the no-show task leaves it |
| LifecycleFields.HistoryWritten | src/jobs/jobs.service.ts:423-438 | One row for each created job and each recorded move to another status, and no other |
| LifecycleFields.ChecklistsWritten | src/qc-checklists/qc-checklists.service.ts:190-300 | A job has at most one checklist, which is submitted once and may be reopened |
| LifecycleFields.InspectionsWritten | src/inspections/inspections.service.ts:18-57 | A job has at most one inspection |
| Workflow.Service.CollectStages | src/admin/workflow.service.ts:70-77 | The loop with its set of seen keys stops at the first rejected or repeated stage |
| Workflow.Service.NormalizeStages | src/admin/workflow.service.ts:68-105 | Map, sort and the category check give the specified result |
| Workflow.Service.UpdateStages | src/admin/workflow.service.ts:31-35 | What is stored is the normalised list, and only when it is accepted |
| Workflow.Service.GetStages | src/admin/workflow.service.ts:21-29 | Loading falls back to the defaults |
| WorkflowProofs.NormalizedKeyShape | src/admin/workflow.service.ts:107-109 | Every normalised key is a slug of at most 80 characters that does not start with an underscore |
| WorkflowProofs.KeyFixedPoint | src/admin/workflow.service.ts:107-109 | A key is a fixed point if and only if it is such a slug and does not end with an underscore |
| WorkflowProofs.CutKeyIsNotFixed | src/admin/workflow.service.ts:107-109 | Keys that are not fixed occur |
| WorkflowProofs.AcceptedIsSound | src/admin/workflow.service.ts:68-105 | Every accepted list has distinct non-empty keys, is sorted and covers the required categories |
| WorkflowProofs.NormalizeTwice | src/admin/workflow.service.ts:68-109 | Normalising an accepted list again returns it if and only if each stage is settled |
| WorkflowProofs.SaveThenLoad | src/admin/workflow.service.ts:21-66 | Loading returns what was saved if and only if each stage is settled |
| WorkflowProofs.BlankTitleIsLost | src/admin/workflow.service.ts:77 | An accepted list with a blank title loads with another title |
| WorkflowProofs.DefaultStageExists | src/jobs/jobs.service.ts:508-518 | A default stage exists for every status but no-show, and for that one if and only if some active stage is meant for it |
| WorkflowProofs.DefaultKeyResolves | src/jobs/jobs.service.ts:508-518 | The default key resolves to an active stage of the status, or of its lane when none has the status |
| WorkflowProofs.StagesAccepted | src/admin/workflow.service.ts:21-29 | Whatever is stored, the stages in force are an accepted list |
| WorkflowFields.KeyHasLetters | src/admin/workflow.service.ts:107-109 | A key has the letters and digits of its text in order and in lower case, all of them unless it was cut |
| WorkflowFields.KeyIgnoresCase | src/admin/workflow.service.ts:107-109 | Texts that differ in capitals only have one key |
| WorkflowFields.WordsAreJoined | src/admin/workflow.service.ts:107-109 | Whatever stands between two words becomes one underscore |
| WorkflowFields.CharactersExact | src/admin/workflow.service.ts:93-109 | Keys are written in small letters and digits, colours in capitals, underscores and hyphens as well |
| WorkflowFields.CaseExact | src/booking-import/booking-import.service.ts:16-20 | Capitals and small letters correspond one to one, and no other character changes |
| WorkflowFields.StageExact | src/admin/workflow.service.ts:70-95 | An item is accepted if and only if a key is left and its status and category are known; the stage has what was sent, cut to the limits, and the defaults for the rest |
| WorkflowFields.SpacedExact | src/admin/workflow.service.ts:77 | The label made from a key has a blank for each underscore |
| WorkflowFields.ListExact | src/admin/workflow.service.ts:68-105 | A list is accepted if and only if every item is, no key repeats and each lane but the cancelled one has a required active stage; its stages come out in order |
| WorkflowFields.ResolveExact | src/jobs/jobs.service.ts:311-317 | A key resolves if and only if an active stage has it, and to that stage |
| SessionServices.AuthService.Login | src/auth/auth.service.ts:198-266 | Lock check, validation, counting and the new session are as specified |
| SessionServices.AuthService.ValidateUser | src/auth/auth.service.ts:178-196 | An expired lock is cleared before the password is compared |
| SessionServices.AuthService.Refresh | src/auth/auth.service.ts:268-334 | Reuse revokes all sessions; otherwise one token is exchanged for another |
| SessionServices.AuthService.RevokeSessions | src/auth/auth.service.ts:572-579 | All of a user's sessions, or all but one, end up revoked |
| SessionServices.AuthService.ResetPassword | src/auth/auth.service.ts:395-415 | A valid reset token is spent, clears the lock and ends all sessions |
| SessionServices.AuthService.LogoutRefreshToken | src/auth/auth.service.ts:581-589 | The token's owner is logged out everywhere |
| SessionServices.AuthService.RevokeSession | src/auth/auth.service.ts:600-605 | A user can end an own session only |
| SessionServices.AuthService.ChangePassword | src/auth/auth.service.ts:618-645 | All live sessions but the newest end |
| SessionProofs.CallStep | src/auth/auth.service.ts:231-334 | A call keeps, revokes or drops old session rows and adds at most one with a fresh token |
| SessionProofs.RefreshExact | src/auth/auth.service.ts:294-328 | A refresh succeeds if and only if the token belongs to an unrevoked, unexpired session of an active user, and then issues a new token |
| SessionProofs.SingleUse | src/auth/auth.service.ts:268-334 | In every run a refresh token is accepted at most once |
| SessionProofs.DeadForever | src/auth/auth.service.ts:292-303 | A token that is revoked or whose row is gone is never accepted again |
| SessionProofs.RefreshConserves | src/auth/auth.service.ts:308-328 | A successful refresh keeps every user's number of live sessions |
| SessionProofs.ChangePasswordLeavesOne | src/auth/auth.service.ts:628-642 | After a password change at most one session of the user is live |
| SessionProofs.ChangePasswordKeepsNewest | src/auth/auth.service.ts:631-642 | The newest live session stays as it was |
| SessionProofs.EndsForGood | src/auth/auth.service.ts:572-589 | After logout, reset or reuse no token of the user's earlier sessions is ever accepted |
| SessionProofs.ReplayExact | src/auth/auth.service.ts:231-303 | Replaying a token that was accepted earlier ends all sessions of its user and leaves none live, whatever ran in between, if and only if no login of that user and no purge dropped its row; otherwise nothing changes |
| SessionProofs.LoginHidesReplay | src/auth/auth.service.ts:231-233 | After a login of the user the replay leaves two sessions live |
| SessionProofs.RedeemExact | src/auth/auth.service.ts:395-401 | A reset succeeds if and only if the link is neither spent nor expired and its user exists |
| SessionProofs.ResetOnce | src/auth/auth.service.ts:395-415 | In every run a reset token works at most once |
| SessionProofs.NewLinkSpendsOld | src/auth/auth.service.ts:346-362 | After an active user asks for a new link, none of the user's earlier links works in any later run |
| SessionProofs.LockStandsExact | src/auth/auth.service.ts:201-205 | Until it runs out a lock stands, and every login is refused, throughout a run if and only if no reset link of the user is redeemed |
| SessionProofs.WrongsInARow | src/auth/auth.service.ts:207-223 | A row of wrong passwords is counted one by one and locks the account if and only if five are on record by then |
| SessionFields.AcceptedExact | src/auth/auth.service.ts:178-645 | Each call succeeds if and only if its user, session or link is there, live and not locked out, and the password is right |
| SessionFields.RefusedExact | src/auth/auth.service.ts:178-645 | Every refused call carries the error of its kind |
| SessionFields.EndSessionExact | src/auth/auth.service.ts:600-605 | Ending a session succeeds if and only if a row with the token belongs to the user; it ends that row and no other, and the token is accepted in no later run |
| SessionFields.RowWritten | src/auth/auth.service.ts:231-334 | Every session row is deleted, ended or left alone, exactly as the call says |
| SessionFields.RowAdded | src/auth/auth.service.ts:310-328 | A call that hands out a token adds one session of 30 days for its user, and no other call adds one |
| SessionFields.UserWritten | src/auth/auth.service.ts:198-266 | A login counts a wrong password on what was on record, a right one or a redeemed link clears it, and nothing else of a user is written |
| SessionFields.UsersAdded | src/auth/auth.service.ts:62-70 | Users are added by sign-up alone |
| SessionFields.LinkWritten | src/auth/auth.service.ts:337-415 | A reset link is spent by its use and by a new request of its user |
| SessionFields.LinkAdded | src/auth/auth.service.ts:346-362 | A new reset link is good for an hour |
| BookingImport.ImportService.MapRow | src/booking-import/booking-import.service.ts:410-420 | The loop over the mappings gives the specified row |
| BookingImport.ImportService.FindOrCreateCustomer | src/booking-import/booking-import.service.ts:281-292 | Matched by phone, email, then name, or created |
| BookingImport.ImportService.FindOrCreateVehicle | src/booking-import/booking-import.service.ts:295-330 | Matched by VIN, then by the customer's plate, and filled in, or created |
| BookingImport.ImportService.BookJob | src/booking-import/booking-import.service.ts:332-396 | A job unless its number or its VIN is taken or its date fails |
| BookingImport.ImportService.RunImport | src/booking-import/booking-import.service.ts:246-405 | More than a thousand rows or no mapping are refused; otherwise the loop gives the specified tables and report |
| BookingProofs.MappedLast | src/booking-import/booking-import.service.ts:410-420 | The last mapping onto a field that finds its column decides it |
| BookingProofs.MappedOnly | src/booking-import/booking-import.service.ts:410-420 | A field is present if and only if some mapping onto it finds its column; ignored columns give none |
| BookingProofs.VinIgnoresCase | src/booking-import/booking-import.service.ts:16-20 | Spellings that differ in case only are one VIN |
| BookingProofs.RowKeeps | src/booking-import/booking-import.service.ts:262-396 | A row adds to the tables, at most one job, and never doubles a number or a VIN |
| BookingProofs.ImportKeeps | src/booking-import/booking-import.service.ts:246-405 | In every run created, skipped and errors add up to the rows, created is the number of new jobs, and numbers and VINs stay distinct |
| BookingProofs.RerunCreatesNothing | src/booking-import/booking-import.service.ts:332-363 | A batch whose rows all carry numbers creates no job the second time |
| BookingProofs.ImportedIsBlocked | src/booking-import/booking-import.service.ts:332-363 | Importing a row makes the duplicate checks stop it from then on if and only if it is ignored, fails its date, carries a number, or has a VIN and no plate that finds a vehicle with another VIN |
| BookingProofs.RerunOneExact | src/booking-import/booking-import.service.ts:332-363 | A batch of one row creates no job the second time if and only if the row is of that kind |
| BookingProofs.RerunExact | src/booking-import/booking-import.service.ts:332-363 | A batch in which no plate misled a row without a number creates no job the second time if and only if every row is ignored, fails its date, or carries a number or a VIN |
| BookingProofs.RerunWithoutPlates | src/booking-import/booking-import.service.ts:332-363 | In particular where rows with a VIN carry no plate, so that the condition can be read off the batch |
| BookingProofs.PlateMisleads | src/booking-import/booking-import.service.ts:444-458 | A car listed under another VIN than it was booked under is booked by every run |
| BookingColumns.RowExact | src/booking-import/booking-import.service.ts:262-278 | A row without a name, or with one that looks like a header, stores nothing; any other settles its customer, vehicle and job in turn |
| BookingColumns.FieldExact | src/booking-import/booking-import.service.ts:262-292 | A text of a row is its column without the white space around it, or empty |
| BookingColumns.VinExact | src/booking-import/booking-import.service.ts:16-20 | A VIN is the text of its column in upper case, cut to 17 characters |
| BookingColumns.CustomerExact | src/booking-import/booking-import.service.ts:281-292 | The customer is the first active one with the phone, else with the email, else with the name, or a new one with these texts |
| BookingColumns.VehicleExact | src/booking-import/booking-import.service.ts:295-330 | The vehicle is the first with the VIN, else the first of the customer with the plate, filled in, or a new one with the texts of the row |
| BookingColumns.RefreshedExact | src/booking-import/booking-import.service.ts:307-330 | Only blank columns of a matched vehicle are written, except that a description stored twice is replaced; the owner changes only with another column |
| BookingColumns.MakeAndModel | src/booking-import/booking-import.service.ts:51-69 | A make without a model is taken for the model |
| BookingColumns.BookExact | src/booking-import/booking-import.service.ts:332-396 | A row whose number is taken or whose VIN waits for a booking is skipped, one whose date fails is an error, and any other adds a booked job of its customer and vehicle |
| BookingColumns.ReportExact | src/booking-import/booking-import.service.ts:256-404 | Created and skipped are the numbers of such rows, and errors lists the numbers of the failed rows in order |

## Left out

- StockServices.Services.ReserveForJob: the price columns and the estimate line of a job part are not in the ledger; the line is modelled by `Quotes.LinkPart` and `Quotes.AddPartLine`.
- QuoteServices.Services.Create: the foreign keys to concerns and inspection responses are not checked.
- QuoteServices.Services.Update: the foreign keys to concerns and quote groups are not checked, nor is the history row that stays behind when they refuse the write.
- QuoteServices.Services.DecideFromPortal: comments, addresses and the used-at time of the link are dropped; the job's move is the separate step `Lifecycle.CustomerDecides`.
- PortalServices.PortalPayload.Load: findings are given with their severity; titles, photos, customer and vehicle texts are dropped.
- LifecycleServices.Services.CreateInspection: the template and technician are taken to exist, so the insert that follows the move does not fail.
- BookingProofs.RerunExact: a batch in which a plate misled a row without a number is covered for one row only, because a later row can create the vehicle that the misled one lacks.
- Workflow.Service.NormalizeStages: items are objects with text, boolean and numeric fields; the conversion of other JSON values is not modelled.
- Tenant operations that pass through unchanged (`upsert`, raw queries, nested writes), unique keys other than the primary key, and updates of primary keys.
- A `where` is a condition on the row alone: filters on related rows, which read other tables, are not modelled.
- Money is exact: rounding to the decimal columns and floating point are not modelled. Column widths and the database's case-insensitive comparison are not either.
- Letters outside Basic Latin have no case in the model; white space is that of the ECMA-262 standard.
- Hashing is looking a secret up by its number, which also stands for the session id; legacy bcrypt token rows, access tokens, permissions and workshop selection are dropped.
- Races inside one service call: each call is one step.
- Job parts do not keep an estimate line alive: the schema sets their reference to null, so they are no part of the quote tables.
- Priorities, traffic lights, reports, billing, notifications, file parsing and the clients: independent of the state modelled here, or finite tables.
