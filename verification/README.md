# Verified model of the WeFlex booking back end

WeFlex lets furnished flats by the month ("flex") and, through Cloudbeds, by the night ("temporal"), and pays
ambassadors a commission on the bookings they bring. This project models the parts of its NestJS back end where
money, calendars and statuses meet, and proves what they keep over every run of service calls. It is written in
Dafny 4.11; `dafny verify dfyconfig.toml` checks all of it.

## How the model is built

The booking money engine is a handful of services over one database. Its tables are one value, `Tables.State`, and every
service call is a function from tables to tables (`Rates`, `Bookings`, `Settlements`, `Payments`). `Steps` puts the
27 calls together into one transition system, so that "over every run" means over every sequence of calls, whatever
their arguments and outcomes; a call that throws leaves whatever it had committed. `Stores.Store` is the same engine
as the services run it, an object whose tables are changed row by row and in loops; each of its methods is proved to
do exactly what the function of that call says. The theorems are then about the functions:

| module | what it proves |
|---|---|
| `Reachability` | the invariants below, together, from an empty book |
| `Registry` | every flex booking has its own registry row, and a commission exists wherever one is due |
| `History` | the status history of every booking is a chained log that ends in its status and only grows |
| `RateEdits` | what each rate edit does to the rates of the cascade and to pending commissions; taking it back |
| `Freshness` | pending commissions agree with the rate cascade after every rate edit |
| `Payouts`, `PayoutTheorems` | settlements are worth what is attached to them; what it takes to be paid |
| `PayoutLeaks` | the two ways in which payouts and cancellations can disagree, and that there are no others |
| `ApprovalTerms` | at which terms an approval releases a commission |
| `AmbassadorReports` | a reservation reported more than once is registered once |
| `PreviewRoundTrip` | settlement preview, creation and cancellation agree |
| `Occupancy` | active stays of a property never overlap |
| `Mirror` | the registry mirrors the flex bookings |
| `Notices`, `Reconciliation` | payment notices act once, and which confirm or throw; what a reconciliation counts |
| `PaymentTrail` | every confirmation by a payment has its payment row |
| `Lifecycle` | final statuses are final; which failed calls have changed something |
| `FlexRows`, `RegistryRows`, `SettlementRows`, `PaymentRows` | what every call answers and what it makes of each row, column by column |
| `Counterexamples`, `PayoutCounterexamples` | runs from an empty book after which such a property fails |

The other models stand beside the engine: `Calendar`, `IsoDates`, `Availability` and `TextSearch` (the search for the
next free start, on days and on texts, connected to the conflict check of a creation), `Forecast`,
`AvailabilityMatrix`, `MatrixCells`, `MatrixTotals` and `Dashboards` (what the dashboard counts), `Pricing`, `PlanRows`
and `FromPrice` (plans, quotes and the "from" price), `RequestSlots` (the Cloudbeds request semaphore) and `Tokens` (refresh-token rotation).

Assumptions. Each service call is one atomic step. Identifiers drawn by the database, the clock, provider answers and
pricing quotes are parameters; a clash of identifiers is the unique violation it would be. Amounts are integers at
the resolution of their columns (cents, hundredths of one percent), a commission is rounded half away from zero to the
cent as its column rounds it, and days are day numbers.

## Where the code does not keep an intended invariant

Each of these is reported as it is, with the exact condition under which the invariant survives, the result that no
other call breaks it where there is one, and a run from an empty book that does.

- Setting a cancelled flex booking back to another status without sending a date skips the conflict check:
  `Occupancy.UpdateFlexOverlap`, no other call in `Occupancy.StepKeepsApart`, a run in
  `Counterexamples.RevivedStayOverlaps`.
- `confirm` and `complete` of the bookings service accept the registry row of a flex booking and leave the flex booking
  behind: `Mirror.DirectChangeMirror`, no other call in `Mirror.StepKeepsMirror`, a run in
  `Counterexamples.DirectConfirmationLeaks`.
- An approved payment on a completed flex booking takes it back to confirmed: `Notices.CompletedStays`,
  `Counterexamples.LatePaymentReopens`.
- Cancelling a booking, directly or through the update or deletion of its flex booking, cancels its commission even when
  it sits in a paid settlement: `PayoutTheorems.CancellationAfterPayment`, no other call in
  `PayoutLeaks.StepKeepsPaidInFull`, a run in `PayoutCounterexamples.CancelledAfterPayment`.
- Paying a draft pays the commissions of bookings cancelled since: `PayoutTheorems.PaymentAfterCancellation`, no other
  call in `PayoutLeaks.StepPaysNothingForCancelled`, a run in `PayoutCounterexamples.PaidAfterCancellation`.
- Soft-deleting a temporal property changes the rate its pending commissions owe without recalculating them:
  `Freshness.DeletePropertyFreshness`, no other call in `Freshness.StepKeepsTemporalFresh`, a run in
  `PayoutCounterexamples.DeletedPropertyGoesStale`.
- In the flex and combined views the dashboard counts every running or pending flex booking twice, through its registry
  row and directly, unless a property filter is set: `Dashboards.FlexStaysCountTwice`,
  `Dashboards.PendingFlexCountsTwice`, `Counterexamples.OneStayOccupiesTwo`, `Counterexamples.OneStayAwaitsTwice`.
- An approved payment for the amount due by a live pending booking can fail to confirm it: it cannot be recorded
  (`Payments.Recordable`) when another row holds it, for example that of a link withdrawn for a newer one:
  `Notices.ConfirmationNeedsPayment`, `Counterexamples.ApprovedPaymentBounces`.
- Rate edits do not reach commissions that wait for validation, so an approval may release one at the rate of the day it
  was reported: `ApprovalTerms.ApprovalReleasesReportedTerms`, `PayoutCounterexamples.ApprovalReleasesStaleTerms`.
- A report without a reservation number is acted on again after its session was started again:
  `AmbassadorReports.StaysKnown`, `PayoutCounterexamples.RestartedSessionReportsTwice`.
- Editing the monthly rate or the minimum months of a flex property can raise what it shows above what its plans ask:
  `FromPrice.PropertyEditKeepsBound`, `FromPrice.PropertyEditKeepsMonths`, no other edit in
  `FromPrice.StepShowsBounds`, a run in `FromPrice.RaisedEditShowsTooMuch`.
- Three of the 27 calls of the engine commit part of their work before they fail, and no others of them:
  `Lifecycle.FailedCallsChangeNothing`, with runs in `Counterexamples.CheckoutLosesLink`,
  `Counterexamples.PaymentOfCancelledIsRecorded` and `Counterexamples.RefusedCancellationIsStored`. Besides these, three
  services do: a sync of several payments, which leaves payment rows only
  (`Reconciliation.ThrownSyncLeavesPayments`, `Counterexamples.SyncFailsHalfway`); the update and the deletion of a plan
  of a deleted property (`FromPrice.FailedEditsChangeNothing`, `FromPrice.DeletionFailsHalfway`); and the rotation of a
  refresh token (`Tokens.RefusedCallsChangeNothing`, `Tokens.ClashLogsOut`).
- Dates before the year 100 are not read back from their text: `IsoDates.TextRoundTrip`.
- Without units the availability matrix still shows one: `MatrixTotals.NoUnitsShowOne`.

## Model

| member | source | states |
|---|---|---|
| `Reachability.ReachableStatesAreSound` | src/modules/flex-bookings/flex-bookings.service.ts:41-443 | In every state reachable from an empty book the registry, the histories, the pending flex commissions, the settlements and the payment rows are all consistent, and every confirmation by a payment has its payment row; without a dateless revival no property is let twice at a time, without a direct confirmation or completion of a flex row the registry mirrors the flex bookings, with harmless deletions of temporal properties pending temporal commissions are fresh too, and without a cancellation of a paid stay or a payment for a cancelled one payouts and cancellations agree |
| `Reachability.InitialIsSound` | src/modules/flex-bookings/flex-bookings.service.ts:41-60 | An empty book satisfies every invariant, whatever properties, ambassadors and rates it starts with |
| `Registry.LinkedStep` | src/modules/flex-bookings/flex-bookings.service.ts:92-165 | No service call breaks the links: each flex booking keeps exactly one registry row, each commission the ambassador of its booking, each payment row an existing flex booking, and every flex stay and ambassador stay has its commission |
| `History.StepLogs` | src/modules/bookings/bookings.service.ts:114-122 | Every call of every service logs exactly the status changes it makes: a booking whose status moves gets one entry from the old to the new status, and one whose status stays gets none |
| `History.HistoryIsFaithful` | src/modules/bookings/bookings.service.ts:184-205 | Over any run the entries of every booking chain from its creation to its current status |
| `History.HistoryOnlyGrows` | src/modules/flex-bookings/flex-bookings.service.ts:379-391 | Over any run no entry of a history is changed or lost |
| `Rates.CommissionAmount` | src/modules/commissions/commission-rates.service.ts:70-72 | The stored commission amount is within half a cent of base times rate over 100 |
| `RateEdits.FlexRowRecalculated` | src/modules/commissions/commission-rates.service.ts:471-491 | Recalculating a flex booking in scope gives its PENDING commission the resolved rate, the monthly amount of the booking as base and their product to half a cent, and changes nothing else of the row |
| `RateEdits.TemporalRowRecalculated` | src/modules/commissions/commission-rates.service.ts:493-512 | The same for a temporal booking, on the total of the stay |
| `RateEdits.RecalculateReprices` | src/modules/commissions/commission-rates.service.ts:431-469 | A catalogue edit followed by a recalculation leaves each pending commission in scope with the terms it owes under the new catalogue, and every other row and table as before |
| `RateEdits.FlexPropertyRateIsSet` | src/modules/commissions/commission-rates.service.ts:250-264 | The rate of a flex property becomes the rate of everybody without an override for it, nobody else is given another rate, and its pending commissions are repriced; a deleted or unknown property is refused |
| `RateEdits.FlexPropertyIsDeleted` | src/modules/property-flex/property-flex.service.ts:108-114 | Soft-deleting a flex property changes nobody's rate and no commission |
| `RateEdits.FlexOverrideIsSet` | src/modules/commissions/commission-rates.service.ts:266-292 | An override becomes the rate of its ambassador for its flex property and of nobody else; unknown ambassadors and deleted properties are refused |
| `RateEdits.FlexOverrideIsGone` | src/modules/commissions/commission-rates.service.ts:294-308 | Once an override is removed its ambassador gets the rate of the property, or their default when it has none |
| `RateEdits.FlexOverrideRoundTrip` | src/modules/commissions/commission-rates.service.ts:266-308 | An override set where there was none and removed again, or changed and changed back, restores all tables exactly, commissions included, when these were fresh |
| `RateEdits.PropertyRateIsSet` | src/modules/commissions/commission-rates.service.ts:317-331 | The rate of a temporal property, as for a flex property |
| `RateEdits.PropertyIsDeleted` | src/modules/properties/properties.service.ts:91-94 | A deleted temporal property lends its rate no more: without an override its bookings fall back to the default of the ambassador, and no commission is repriced |
| `RateEdits.PropertyOverrideIsSet` | src/modules/commissions/commission-rates.service.ts:333-359 | An override for a temporal property, as for a flex property |
| `RateEdits.PropertyOverrideIsGone` | src/modules/commissions/commission-rates.service.ts:361-372 | Its removal |
| `RateEdits.PropertyOverrideRoundTrip` | src/modules/commissions/commission-rates.service.ts:333-372 | And the two as a round trip |
| `RateEdits.DefaultRateIsSet` | src/modules/professionals/professionals.service.ts:278-296 | A default rate becomes the rate of its ambassador exactly where neither an override nor a property gives one, 0 counting as none, and all their pending commissions are repriced |
| `RateEdits.OnlyConcernedAreRepriced` | src/modules/commissions/commission-rates.service.ts:250-469 | A rate edit changes no commission but PENDING ones of the bookings of its property, and of its ambassador where it names one; deleting a property changes none |
| `Freshness.RecalculationIsEnough` | src/modules/commissions/commission-rates.service.ts:431-491 | A rate edit followed by a recalculation of a set of bookings leaves every pending commission fresh as soon as no booking outside the set owes other terms than before |
| `Freshness.StepKeepsFresh` | src/modules/commissions/commission-rates.service.ts:250-411 | Every call keeps pending commissions equal to the cascade: the targeted recalculations after property, override and ambassador edits reach every booking the edit can move |
| `Freshness.FlexCommissionsAreFresh` | src/modules/commissions/commission-rates.service.ts:32-72 | After any run the PENDING commission of a flex booking has the rate of the cascade for its property and ambassador now, the monthly amount of the booking as base, and their rounded product as amount |
| `Freshness.DeletePropertyFreshness` | src/modules/properties/properties.service.ts:91-94 | Deleting a temporal property keeps its pending commissions fresh exactly when each of them has an override or an ambassador default equal to the rate of the property |
| `Freshness.StepKeepsTemporalFresh` | src/modules/properties/properties.service.ts:91-94 | Of all calls exactly the deletion of a live temporal property that is not harmless in that sense makes pending temporal commissions stale |
| `Freshness.TemporalCommissionsAreFresh` | src/modules/commissions/commission-rates.service.ts:116-152 | Over any run without such a deletion pending temporal commissions agree with the cascade |
| `Occupancy.UpdateFlexOverlap` | src/modules/flex-bookings/flex-bookings.service.ts:297-316 | An update keeps active stays apart exactly when it does not set a cancelled booking to another status, without a date, on days that another active booking has taken |
| `Occupancy.StepKeepsApart` | src/modules/flex-bookings/flex-bookings.service.ts:47-60 | Of all calls exactly such an update lets two active stays of one property share a day |
| `Occupancy.NeverDoubleBooked` | src/modules/flex-bookings/flex-bookings.service.ts:47-60 | Over any run without such a revival two active stays of one property never share a day |
| `FlexRows.ConflictIsTaken` | src/modules/flex-bookings/flex-bookings.service.ts:51-60 | Days are in conflict exactly when another booking of the property, neither deleted nor cancelled, has some of them |
| `FlexRows.CreationAnswers` | src/modules/flex-bookings/flex-bookings.service.ts:41-87 | A creation succeeds exactly for a live property, free days in order, amounts within one unit of the quote, a known ambassador and fresh identifiers, and otherwise changes nothing |
| `FlexRows.CreationStarts` | src/modules/flex-bookings/flex-bookings.service.ts:96-162 | Flex row, registry row and commission start PENDING at the amounts of the quote, not those sent, for the days between the dates |
| `FlexRows.PaymentConfirms` | src/modules/flex-bookings/flex-bookings.service.ts:189-208 | A payment confirms a live flex booking unless it is CANCELLED, and changes nothing of a CONFIRMED one |
| `FlexRows.PaymentReaches` | src/modules/flex-bookings/flex-bookings.service.ts:207-229 | It takes the registry row with it, and when that row moves approves a PENDING commission outside settlements |
| `FlexRows.PaymentIsLogged` | src/modules/flex-bookings/flex-bookings.service.ts:215-223 | The entry then logged goes from the status before to CONFIRMED and names the payment |
| `FlexRows.UpdateAnswers` | src/modules/flex-bookings/flex-bookings.service.ts:288-309 | An update needs a live booking, dates in order and, when a date is sent, free days; accepted, it fails only when it asks for a cancellation that is refused |
| `FlexRows.UpdateChangesFlex` | src/modules/flex-bookings/flex-bookings.service.ts:311-327 | After an accepted update days, months and monthly amount are those sent or else stored; the total is the one sent, else, when a monthly amount or months are sent, the monthly amount times the months, else as stored |
| `FlexRows.UpdateChangesRegistry` | src/modules/flex-bookings/flex-bookings.service.ts:344-360 | The registry row takes the days sent, the nights between the days of the flex row when one is sent, and its total, as base and as total, when an amount or months are sent; nothing else of it and no other registry row changes |
| `FlexRows.UpdateMoves` | src/modules/flex-bookings/flex-bookings.service.ts:379-412 | A status sent, other than CANCELLED, is taken by both rows; a cancellation cancels both when the registry row is live and neither CANCELLED nor COMPLETED, and otherwise neither; no other flex row changes |
| `FlexRows.UpdateReprices` | src/modules/flex-bookings/flex-bookings.service.ts:362-397 | A PENDING commission takes the resolved rate and the new monthly amount when an amount or months are sent, is approved when the update confirms the registry row, and is cancelled with it whatever its status; no other commission changes |
| `FlexRows.DeletionAnswers` | src/modules/flex-bookings/flex-bookings.service.ts:423-432 | A deletion is refused exactly when the booking is gone or its registry row must be cancelled first and cannot be, and then changes nothing |
| `FlexRows.DeletionDeletes` | src/modules/flex-bookings/flex-bookings.service.ts:433-443 | Both rows are kept as deleted, CANCELLED rows, the commission is cancelled with a registry row that was not cancelled before, and nothing else changes |
| `Mirror.DirectChangeMirror` | src/modules/bookings/bookings.service.ts:108-118 | Confirming or completing a booking in the registry breaks the mirror exactly when the row is live, belongs to a flex booking, and is PENDING for a confirmation or CONFIRMED for a completion |
| `Mirror.StepKeepsMirror` | src/modules/bookings/bookings.service.ts:108-241 | Of all calls exactly those break the mirror |
| `Mirror.RegistryMirrors` | src/modules/flex-bookings/flex-bookings.service.ts:17-22 | Over any run without such a call the registry row of every flex booking has its mapped status, days, nights, amounts and deletion |
| `Payouts.StepEvolves` | src/modules/commissions/commission-workflow.service.ts:11-38 | Outside settlement calls a commission keeps its settlement; its terms move only while PENDING, and it leaves PENDING_VALIDATION only by its own approval or by cancellation |
| `Payouts.StepKeepsSettled` | src/modules/commissions/commission-settlements.service.ts:284-305 | Every call keeps each draft and paid settlement equal to the sum of its attached commissions, all of its ambassador and all approved before they were attached, and cancelled settlements empty |
| `PayoutTheorems.SettlementsBalance` | src/modules/commissions/commission-settlements.service.ts:394-453 | Over any run every DRAFT or PAID settlement totals its attached commissions, a CANCELLED one has none, and a commission is PAID only inside a PAID settlement of its ambassador |
| `PayoutTheorems.OnlyApprovalReleases` | src/modules/ambassadors/ambassadors.service.ts:303-314 | Over any run without its explicit approval a commission created as PENDING_VALIDATION is neither attached, paid nor repriced: it is as it was, or cancelled |
| `ApprovalTerms.ApprovalReleasesTheSame` | src/modules/commissions/commission-workflow.service.ts:40-69 | An approval changes no terms: it releases what is owed exactly when the commission carried that before, as a fresh PENDING one always does |
| `ApprovalTerms.ApprovalReleasesReportedTerms` | src/modules/ambassadors/ambassadors.service.ts:303-314 | A stay reported from an ambassador's session and approved after any run is released at the rate of the day it was reported, so up to date exactly when the cascade gives that rate again |
| `PayoutCounterexamples.ApprovalReleasesStaleTerms` | src/modules/commissions/commission-workflow.service.ts:40-69 | From an empty book: a stay is reported at 10 %, the property goes to 20 %, and the approval releases the commission at 10 % |
| `AmbassadorReports.OnlyRepetitionsAreIgnored` | src/modules/ambassadors/ambassadors.service.ts:189-210 | A report from a session of a known ambassador is ignored exactly when its reservation is registered, or, when it names none, its session is confirmed with a booking |
| `AmbassadorReports.StaysKnown` | src/modules/ambassadors/ambassadors.service.ts:189-210 | Of all calls exactly a restart of its session makes a report forgotten, and only one that names no reservation |
| `AmbassadorReports.ReportActsOnce` | src/modules/ambassadors/ambassadors.service.ts:145-210 | Whatever happens in between, repeating a report changes nothing and is answered, if it names its reservation or its session was not started again |
| `PayoutCounterexamples.RestartedSessionReportsTwice` | src/modules/ambassadors/ambassadors.service.ts:93-119 | From an empty book: a report without a reservation number is repeated after its session was started again, and the stay is booked twice |
| `PayoutTheorems.CancellationAfterPayment` | src/modules/bookings/bookings.service.ts:209-214 | A cancellation leaves an unpaid commission inside a paid settlement exactly when the commission of the booking had been paid out there |
| `PayoutTheorems.PaymentAfterCancellation` | src/modules/commissions/commission-settlements.service.ts:405-425 | Paying a draft pays a commission of a cancelled booking exactly when one attached to it was cancelled after the draft was made |
| `PayoutLeaks.PaidRowsStay` | src/modules/commissions/commission-settlements.service.ts:394-429 | Outside settlement calls a PAID commission is never touched, except that it is cancelled with its booking |
| `PayoutLeaks.OnlyCancellationsCancel` | src/modules/bookings/bookings.service.ts:175-224 | A booking becomes CANCELLED only through a cancellation, an accepted cancelling update or the deletion of its flex booking, and only while live and neither cancelled nor completed |
| `PayoutLeaks.StepKeepsPaidInFull` | src/modules/bookings/bookings.service.ts:209-214 | Of all 27 calls exactly the cancellation of a booking whose commission has been paid out, direct or through the update or deletion of its flex booking, leaves a paid settlement with an unpaid commission |
| `PayoutLeaks.StepPaysNothingForCancelled` | src/modules/commissions/commission-settlements.service.ts:405-425 | Of all 27 calls exactly the payment of a draft that holds the commission of a cancelled booking leaves a PAID commission on a cancelled booking |
| `PayoutLeaks.PayoutsMatchCancellations` | src/modules/commissions/commission-settlements.service.ts:394-429 | Over any run without either, every commission in a PAID settlement is PAID and no PAID commission belongs to a cancelled booking |
| `PreviewRoundTrip.PreviewIsExhaustive` | src/modules/commissions/commission-settlements.service.ts:126-213 | The grand total of the preview is the sum of all eligible commissions: none is lost or counted under two ambassadors |
| `PreviewRoundTrip.CreationMatchesPreview` | src/modules/commissions/commission-settlements.service.ts:253-317 | Unfiltered creation makes one draft for each preview group with its ambassador and total, the drafts add up to the grand total, and the next preview is empty |
| `PreviewRoundTrip.CancellingRestoresPreview` | src/modules/commissions/commission-settlements.service.ts:431-453 | Cancelling all those drafts, in any order, restores every commission and the preview of before |
| `SettlementRows.CreationAttaches` | src/modules/commissions/commission-settlements.service.ts:55-65 | A creation attaches a commission exactly when it is APPROVED, unattached and of an ambassador asked for, and its booking is live and CONFIRMED or COMPLETED, to the settlement of that ambassador, and changes nothing else of any commission |
| `SettlementRows.CreationIsRefused` | src/modules/commissions/commission-settlements.service.ts:253-297 | It is refused exactly when there is no such commission or identifiers clash, and then changes nothing |
| `SettlementRows.CreationDrafts` | src/modules/commissions/commission-settlements.service.ts:284-297 | Every new settlement is a DRAFT of the ambassador whose identifier was drawn, worth the sum of the amounts attached to it, of which there is one; earlier settlements stay |
| `SettlementRows.AttachedToDraft` | src/modules/commissions/commission-settlements.service.ts:299-303 | A commission that is attached goes to one of the new settlements |
| `SettlementRows.PreviewLists` | src/modules/commissions/commission-settlements.service.ts:126-213 | The preview lists exactly the same commissions, each under its ambassador, with the sum of their amounts |
| `SettlementRows.ApprovalApproves` | src/modules/commissions/commission-workflow.service.ts:40-69 | An approval needs a commission in no settlement that is neither PAID nor CANCELLED, and changes its status only |
| `SettlementRows.PaymentPays` | src/modules/commissions/commission-settlements.service.ts:394-429 | A payment needs a DRAFT and makes it and every commission attached to it PAID, and no other |
| `SettlementRows.CancellationDetaches` | src/modules/commissions/commission-settlements.service.ts:431-453 | A cancellation needs a DRAFT, makes it CANCELLED and takes exactly its commissions out of it |
| `Notices.AtMostOnePending` | src/modules/payments/flex-booking-payments.service.ts:221-259 | Over any run a flex booking has at most one PENDING payment row, and a Mercado Pago payment at most one row |
| `Notices.NoticesActOnce` | src/modules/payments/flex-booking-payments.service.ts:501-573 | Any sequence of notices, repeated and in any order, leaves flex booking, registry row, history and commission as the confirmation by its first confirming notice does, or as they were when none confirms |
| `Notices.FirstConfirmingActsAlone` | src/modules/payments/flex-booking-payments.service.ts:501-573 | That notice, handled first and alone, leaves them the same: whatever came before it neither confirmed the booking nor made it confirmable |
| `Notices.PendingIsConfirmedOnce` | src/modules/flex-bookings/flex-bookings.service.ts:189-229 | For a pending booking that means at most one history entry from PENDING to CONFIRMED, naming that payment, and a pending commission approved with it |
| `Notices.ConfirmationNeedsPayment` | src/modules/payments/flex-booking-payments.service.ts:513-573 | A notice changes the status of a booking exactly when it is an approved payment that names it, within one unit of the amount due, and can be recorded, and the booking is live and neither confirmed nor cancelled; the booking is then CONFIRMED and the payment recorded as approved |
| `Notices.NoticeThrows` | src/modules/payments/flex-booking-payments.service.ts:414-573 | A notice throws exactly when it is an approved matching payment of a live unconfirmed booking that is cancelled or cannot record it, or another report its booking waits for while some row holds the payment |
| `PaymentTrail.StepKeepsTrail` | src/modules/payments/flex-booking-payments.service.ts:540-573 | No call loses the row of a payment that a history names, and only a notice logs a payment |
| `PaymentTrail.PaymentsAreOnRecord` | src/modules/flex-bookings/flex-bookings.service.ts:210-223 | Over any run each history entry that names a payment has a payment row of that flex booking with it, APPROVED or REFUNDED |
| `Counterexamples.ApprovedPaymentBounces` | src/modules/payments/flex-booking-payments.service.ts:540-560 | From an empty book: a payment begun through one link is approved after a newer link was made; it names a live PENDING booking and is for the amount due, yet the notice fails and changes nothing |
| `Notices.CompletedStays` | src/modules/flex-bookings/flex-bookings.service.ts:194-205 | A completed booking stays completed under a notice exactly when the notice is not an approved payment that names it, matches the amount due and can be recorded |
| `Reconciliation.ReconcileReceives` | src/modules/payments/flex-booking-payments.service.ts:289-321 | A reconciliation, with the syncs that throw and are skipped, does what the sequence of notices it handled does |
| `Reconciliation.SyncOnlyConfirms` | src/modules/payments/flex-booking-payments.service.ts:461-499 | A sync with payments that name its booking leaves other bookings alone, and never throws once it has changed the status of its own |
| `Reconciliation.ThrownSyncLeavesPayments` | src/modules/payments/flex-booking-payments.service.ts:484-498 | A sync with payments that name its booking and that throws has changed nothing but payment rows |
| `Counterexamples.SyncFailsHalfway` | src/modules/payments/flex-booking-payments.service.ts:484-498 | From an empty book: a sync stores a refused payment and then fails on the next one |
| `PaymentRows.CheckoutAnswers` | src/modules/payments/flex-booking-payments.service.ts:177-259 | Only a live booking with an amount due that is neither CONFIRMED nor CANCELLED nor paid gets past the checks of a checkout; without a recent link it then needs the provider and a fresh identifier |
| `PaymentRows.CheckoutRows` | src/modules/payments/flex-booking-payments.service.ts:221-227 | A checkout that finds no recent link cancels the PENDING rows of its booking; no other row is ever touched |
| `PaymentRows.CheckoutIsDone` | src/modules/payments/flex-booking-payments.service.ts:207-259 | A checkout that is done leaves the tables as they are exactly when the booking has a PENDING row with a link made after the cutoff; otherwise it adds one row for the amount due, then the only PENDING row of the booking |
| `PaymentRows.RefundRows` | src/modules/payments/flex-booking-payments.service.ts:595-607 | A refunded or charged back payment that names a booking makes exactly the rows that hold it REFUNDED |
| `PaymentRows.ReportAnswers` | src/modules/payments/flex-booking-payments.service.ts:438-455 | A rejected, cancelled, pending or running payment fails, changing nothing, exactly when its booking has a PENDING row without a payment and some row holds the payment already |
| `PaymentRows.ReportRows` | src/modules/payments/flex-booking-payments.service.ts:438-455 | Otherwise the PENDING rows of its booking without a payment take it, as REJECTED, CANCELLED or PENDING, and no other row changes |
| `PaymentRows.ApprovedAnswers` | src/modules/payments/flex-booking-payments.service.ts:501-573 | An approved payment fails exactly when it is for the amount due by a live unconfirmed booking and cannot be recorded, or the booking it is recorded for is CANCELLED |
| `PaymentRows.ApprovedConfirms` | src/modules/payments/flex-booking-payments.service.ts:573-573 | Recorded, it confirms its booking unless that is CANCELLED; beyond that only payment rows change |
| `PaymentRows.ApprovedRows` | src/modules/payments/flex-booking-payments.service.ts:525-556 | Recorded, it goes to the PENDING row of its booking, which becomes APPROVED; of a CONFIRMED booking the rows that hold it become APPROVED; no other row changes |
| `PaymentRows.ApprovedRowIsNew` | src/modules/payments/flex-booking-payments.service.ts:557-569 | Recorded without a PENDING row it gets a new APPROVED one, for the amount due or else for what was paid; nothing else adds a row |
| `PaymentRows.OtherNotices` | src/modules/payments/flex-booking-payments.service.ts:438-448 | A notice that names no booking, an approved payment of a booking that is gone, and an unknown status change nothing |
| `Reconciliation.EachIsCountedOnce` | src/modules/payments/flex-booking-payments.service.ts:302-317 | A booking counts exactly when its sync went through and left it with another status; a sync that throws is passed over and the others go on |
| `Reconciliation.ReconcileCounts` | src/modules/payments/flex-booking-payments.service.ts:302-320 | With answers that name the bookings asked for, processed is the number of flex bookings whose status changed, and each of them is now CONFIRMED |
| `Lifecycle.StepMoves` | src/modules/bookings/bookings.service.ts:175-241 | Whatever is called, a booking that is not a flex stay only moves from PENDING to CONFIRMED, from CONFIRMED to COMPLETED, or to CANCELLED while neither completed nor cancelled |
| `Lifecycle.FinalStatusStays` | src/modules/bookings/bookings.service.ts:177-182 | Over any run such a booking keeps a CANCELLED or COMPLETED status for good |
| `RegistryRows.CancellationCancels` | src/modules/bookings/bookings.service.ts:175-205 | A cancellation needs a live booking that is neither CANCELLED nor COMPLETED and makes that row CANCELLED and no other |
| `RegistryRows.CancellationReaches` | src/modules/bookings/bookings.service.ts:184-214 | It cancels the flex booking of the row and its commission, whatever their status, and no other |
| `RegistryRows.ConfirmationConfirms` | src/modules/bookings/bookings.service.ts:108-122 | A confirmation needs a live PENDING booking and makes it CONFIRMED |
| `RegistryRows.ConfirmationApproves` | src/modules/bookings/bookings.service.ts:137-160 | It approves a PENDING commission outside settlements; where there is none, a stay of an ambassador at a property gets one, APPROVED, at the resolved rate on its total |
| `RegistryRows.CompletionCompletes` | src/modules/bookings/bookings.service.ts:226-241 | A completion needs a live CONFIRMED booking and changes nothing but its status |
| `RegistryRows.RedatingRedates` | src/modules/bookings/bookings.service.ts:243-279 | New dates need a live booking neither of a flex stay nor CANCELLED and must stay in order; the nights are the days between them as soon as one is sent |
| `RegistryRows.DirectBookingStarts` | src/modules/bookings/bookings.service.ts:22-46 | A direct booking is PENDING, of no property, for the days between its dates and at the amounts sent, without a commission |
| `RegistryRows.CloudbedsStayStarts` | src/modules/cloudbeds/reservation-intents.service.ts:153-312 | A confirmed Cloudbeds stay is refused without a property or dates, ignored when its reservation is registered, and else CONFIRMED for at least one night |
| `RegistryRows.CloudbedsStayEarns` | src/modules/cloudbeds/reservation-intents.service.ts:153-312 | Its commission is PENDING, for the ambassador who brought it, at the resolved rate on its total; without one there is none |
| `RegistryRows.SessionStarts` | src/modules/ambassadors/ambassadors.service.ts:49-119 | A session started again is no longer confirmed and keeps its ambassador and its booking |
| `RegistryRows.ReportedStayStarts` | src/modules/ambassadors/ambassadors.service.ts:268-326 | A reported stay, when registered, is PENDING, for the ambassador of the session and at least one night, and confirms the session |
| `RegistryRows.ReportedStayEarns` | src/modules/ambassadors/ambassadors.service.ts:298-314 | Its commission waits for validation, at the resolved rate, or at the default of the ambassador without a property |
| `Lifecycle.FailedCallsChangeNothing` | src/modules/flex-bookings/flex-bookings.service.ts:402-412 | Of the 27 calls of the engine one fails and has changed something exactly in three cases: a checkout of a payable booking with pending rows but no recent one, when the provider or the new row fails; an approved matching payment, not yet recorded, for a cancelled booking; and an accepted update that writes something and also asks to cancel a booking whose registry row is completed or deleted |
| `Counterexamples.RevivedStayOverlaps` | src/modules/flex-bookings/flex-bookings.service.ts:303-316 | From an empty book: booking, cancelling, letting the days again and setting the cancelled booking to PENDING ends with two active stays on the same days |
| `Counterexamples.DirectConfirmationLeaks` | src/modules/bookings/bookings.service.ts:108-118 | From an empty book: confirming the registry row of a fresh flex booking leaves the flex booking PENDING |
| `Counterexamples.LatePaymentReopens` | src/modules/flex-bookings/flex-bookings.service.ts:194-205 | From an empty book: a deposit paid after the stay was completed takes the booking back to CONFIRMED |
| `Counterexamples.PaymentOfCancelledIsRecorded` | src/modules/payments/flex-booking-payments.service.ts:540-573 | From an empty book: the deposit of a cancelled booking is refused and yet recorded as approved |
| `Counterexamples.CheckoutLosesLink` | src/modules/payments/flex-booking-payments.service.ts:221-266 | From an empty book: while the provider is down a checkout fails and withdraws the payment link made before |
| `Counterexamples.RefusedCancellationIsStored` | src/modules/flex-bookings/flex-bookings.service.ts:334-412 | From an empty book: an update that lengthens and cancels a completed booking is refused, and the longer booking is stored |
| `Counterexamples.OneStayOccupiesTwo` | src/modules/admin/admin-dashboard.service.ts:205-237 | From an empty book: one confirmed flex booking occupies two units of the dashboard on a day of its stay |
| `Counterexamples.OneStayAwaitsTwice` | src/modules/admin/admin-dashboard.service.ts:205-237 | From an empty book: one pending flex booking makes two that await confirmation |
| `PayoutCounterexamples.CancelledAfterPayment` | src/modules/bookings/bookings.service.ts:209-214 | From an empty book: a stay sold, its commission approved, settled and paid, then cancelled, leaves a cancelled commission inside a PAID settlement |
| `PayoutCounterexamples.PaidAfterCancellation` | src/modules/commissions/commission-settlements.service.ts:405-425 | From an empty book: the same stay cancelled while its settlement is a draft, then paid, leaves a PAID commission of a cancelled booking |
| `PayoutCounterexamples.DeletedPropertyGoesStale` | src/modules/properties/properties.service.ts:91-94 | From an empty book: a stay sold and its property deleted leaves a pending commission at the rate of the property while the cascade says the default of the ambassador |
| `Stores.Store.constructor` | src/modules/flex-bookings/flex-bookings.service.ts:41-60 | The store starts with a catalogue and no bookings |
| `Stores.Store.RecalculateBooking` | src/modules/commissions/commission-rates.service.ts:471-512 | Recalculating one booking gives its PENDING commission the rate and base it owes, and touches nothing when the booking owes none or the commission is not PENDING |
| `Stores.Store.RecalculateScope` | src/modules/commissions/commission-rates.service.ts:431-469 | The loop over the pending bookings of a query recalculates exactly those, in any order |
| `Stores.Store.SetFlexPropertyRate` | src/modules/commissions/commission-rates.service.ts:250-264 | The rate of a live flex property is set and its bookings recalculated; the property update does the same only when it sends a rate |
| `Stores.Store.DeleteFlexProperty` | src/modules/property-flex/property-flex.service.ts:108-114 | A flex property is soft-deleted without recalculation; it still lends its rate |
| `Stores.Store.UpsertFlexOverride` | src/modules/commissions/commission-rates.service.ts:266-292 | An override for an ambassador and a flex property is stored and their bookings recalculated |
| `Stores.Store.DeleteFlexOverride` | src/modules/commissions/commission-rates.service.ts:294-308 | It is removed and their bookings recalculated |
| `Stores.Store.SetPropertyRate` | src/modules/commissions/commission-rates.service.ts:317-331 | The rate of a live temporal property is set and its bookings recalculated |
| `Stores.Store.DeleteProperty` | src/modules/properties/properties.service.ts:91-94 | A temporal property is soft-deleted without recalculation |
| `Stores.Store.UpsertPropertyOverride` | src/modules/commissions/commission-rates.service.ts:333-359 | An override for an ambassador and a temporal property is stored and their bookings recalculated |
| `Stores.Store.DeletePropertyOverride` | src/modules/commissions/commission-rates.service.ts:361-372 | It is removed and their bookings recalculated |
| `Stores.Store.SetDefaultRate` | src/modules/professionals/professionals.service.ts:278-296 | The default rate of an ambassador is set and all their bookings recalculated |
| `Stores.Store.RecalculateAll` | src/modules/commissions/commission-rates.service.ts:413-429 | Every pending commission is recalculated |
| `Stores.Store.ChangeStatus` | src/modules/bookings/bookings.service.ts:115-122 | A status change and its history entry go together |
| `Stores.Store.ApproveIfPending` | src/modules/commissions/commission-workflow.service.ts:11-38 | Only a PENDING commission outside any settlement is approved on confirmation |
| `Stores.Store.CreateFlex` | src/modules/flex-bookings/flex-bookings.service.ts:41-165 | Flex booking, registry row, first history entry and commission are created together, after the property, date, conflict, plan and amount checks, in that order |
| `Stores.Store.ConfirmFromPayment` | src/modules/flex-bookings/flex-bookings.service.ts:189-229 | Confirms a flex booking that is neither confirmed nor cancelled, its registry row with a history entry naming the payment, and approves the commission |
| `Stores.Store.FillFlexData` | src/modules/flex-bookings/flex-bookings.service.ts:311-327 | The columns an update writes on the flex row, field by field: only what was sent, and a total whenever amount or months were |
| `Stores.Store.FillRegistryData` | src/modules/flex-bookings/flex-bookings.service.ts:344-360 | The columns it writes on the registry row, field by field |
| `Stores.Store.FollowFlexStatus` | src/modules/flex-bookings/flex-bookings.service.ts:379-397 | The registry takes the status the flex booking was given, with an entry when it moves, and a confirmation approves the commission |
| `Stores.Store.UpdateFlexRows` | src/modules/flex-bookings/flex-bookings.service.ts:334-400 | The whole update transaction |
| `Stores.Store.UpdateFlex` | src/modules/flex-bookings/flex-bookings.service.ts:288-421 | The update with its date and conflict checks before and its cancellation after the transaction |
| `Stores.Store.DeleteFlex` | src/modules/flex-bookings/flex-bookings.service.ts:423-443 | The booking is cancelled first and deletion refused when that is; then both rows are soft-deleted |
| `Stores.Store.CreateBooking` | src/modules/bookings/bookings.service.ts:22-46 | A direct booking needs a positive number of nights and starts PENDING with its first history entry |
| `Stores.Store.ConfirmBooking` | src/modules/bookings/bookings.service.ts:108-169 | A PENDING booking is confirmed, and the commission of an ambassador stay is created if missing and approved |
| `Stores.Store.CancelBooking` | src/modules/bookings/bookings.service.ts:175-224 | A booking that is neither cancelled nor completed is cancelled with its flex booking and its commission, whatever the status of the commission |
| `Stores.Store.CompleteBooking` | src/modules/bookings/bookings.service.ts:226-241 | Only a CONFIRMED booking is completed |
| `Stores.Store.UpdateBooking` | src/modules/bookings/bookings.service.ts:243-279 | Dates of a booking that is neither flex nor cancelled change with the nights they make, if they stay in order |
| `Stores.Store.ConfirmFromCloudbeds` | src/modules/cloudbeds/reservation-intents.service.ts:153-312 | A confirmed Cloudbeds stay is registered once for each reservation, CONFIRMED, with a PENDING commission when an ambassador brought it |
| `Stores.Store.StartSession` | src/modules/ambassadors/ambassadors.service.ts:49-119 | A session is created for an ambassador, or one that exists is started again and stays whose it was |
| `Stores.Store.AmbassadorReservation` | src/modules/ambassadors/ambassadors.service.ts:150-336 | A reservation reported from an ambassador session is registered once, by its number or else by its session, PENDING, for the owner of the session, with a PENDING_VALIDATION commission, and confirms the session |
| `Stores.Store.ApproveCommission` | src/modules/commissions/commission-workflow.service.ts:40-69 | A commission outside settlements that is neither paid nor cancelled becomes APPROVED |
| `Stores.Store.GetSettlementPreview` | src/modules/commissions/commission-settlements.service.ts:126-213 | The loop with running totals computes the group of each ambassador with something to collect, and the grand total |
| `Stores.Store.CreateSettlements` | src/modules/commissions/commission-settlements.service.ts:253-317 | The loops of the transaction make one draft for each ambassador among the filtered eligible commissions and attach exactly those, or nothing when an identifier clashes or nothing is eligible |
| `Stores.Store.MarkPaid` | src/modules/commissions/commission-settlements.service.ts:394-429 | A DRAFT becomes PAID with every commission attached to it |
| `Stores.Store.CancelDraft` | src/modules/commissions/commission-settlements.service.ts:431-453 | A DRAFT becomes CANCELLED and its commissions are detached |
| `Stores.Store.CreateCheckout` | src/modules/payments/flex-booking-payments.service.ts:177-266 | A payable booking reuses a recent pending checkout, or has its pending rows cancelled and a new one made for the amount due |
| `Stores.Store.RecordApproved` | src/modules/payments/flex-booking-payments.service.ts:540-571 | An approved payment goes to the pending row of its booking, else to a new row for the amount due |
| `Stores.Store.ConfirmApproved` | src/modules/payments/flex-booking-payments.service.ts:501-573 | An approved payment is matched to a live booking and its amount before it is recorded and confirms the booking |
| `Stores.Store.ProcessNotice` | src/modules/payments/flex-booking-payments.service.ts:414-459 | A notice is handled by its status; at most one pending row per booking is kept |
| `Stores.Store.SyncBookingPayments` | src/modules/payments/flex-booking-payments.service.ts:461-499 | The payments found are processed in order until one throws |
| `Stores.Store.ReconcilePendingPayments` | src/modules/payments/flex-booking-payments.service.ts:289-321 | At most 50 pending payable bookings are synced, each on its own, and those whose status changed are counted |
| `Calendar.YearFrom` | src/modules/property-flex/flex-availability.util.ts:6-9 | The search for the year of a day ends in the one year the day lies in |
| `Calendar.CivilOf` | src/modules/property-flex/flex-availability.util.ts:11-13 | Year, month and day of a day number form a valid date that is that day |
| `Calendar.DatesAreDays` | src/modules/property-flex/flex-availability.util.ts:6-13 | A valid date is read back from its day number: dates and days are interchangeable |
| `Calendar.AddMonthsLands` | src/modules/property-flex/flex-availability.util.ts:15-19 | Adding months keeps the day of the month when the target month has it, and runs over into the month after by the days it lacks otherwise |
| `Calendar.StayEndsAfterStart` | src/modules/property-flex/flex-availability.util.ts:15-19 | A stay of n months ends between 28n and 31n days after it starts, so after its start for any n of at least 1 |
| `Calendar.LaterStartEndsNoLater` | src/modules/property-flex/flex-availability.util.ts:15-19 | Starting a day later ends no later exactly on the last day of a month longer than the month the stay ends in |
| `Calendar.EndNotMonotone` | src/modules/property-flex/flex-availability.util.ts:15-19 | From 31 January 2023 one month ends on 3 March, from 1 February on 1 March |
| `IsoDates.AddMonthsOnText` | src/modules/property-flex/flex-availability.util.ts:15-19 | On text, adding months gives the text of the day that many months later exactly from the year 100 on |
| `IsoDates.TextReadAs` | src/modules/property-flex/flex-availability.util.ts:6-19 | Before the year 100 the text is read 1900 years late, and before the year 0 its sign shifts the pieces |
| `IsoDates.TextsDiffer` | src/modules/property-flex/flex-availability.util.ts:11-13 | Different days have different texts, in any year |
| `IsoDates.TextRoundTrip` | src/modules/property-flex/flex-availability.util.ts:6-13 | A day written as text is read back as the same day exactly from the year 100 on |
| `Availability.FindNextAvailableStart` | src/modules/property-flex/flex-availability.util.ts:39-62 | The answer is the least day from today, before the horizon, whose stay meets no period, and null exactly when there is none |
| `Availability.GetBookedPeriods` | src/modules/property-flex/property-flex.service.ts:149-173 | The periods are exactly those of the active bookings of a live property that meet the window |
| `Availability.GetNextAvailableFrom` | src/modules/property-flex/property-flex.service.ts:175-188 | The search runs over the bookings that meet the 18 months from today, for the months asked for or the minimum of the property |
| `Availability.FreeUnlessBeyondWindow` | src/modules/property-flex/property-flex.service.ts:154-163 | A stay the search finds is free of conflicts exactly when no active booking that starts after the window meets it |
| `Availability.RejectedIsTaken` | src/modules/property-flex/flex-availability.util.ts:21-37 | A start the search rejects would meet the conflict check of a creation |
| `Availability.NextAvailableIsTheFirstBookable` | src/modules/flex-bookings/flex-bookings.service.ts:51-60 | A stay found that ends inside the window passes the conflict check of a creation, and no earlier start from today would |
| `Availability.NextAvailableCanBeCreated` | src/modules/flex-bookings/flex-bookings.service.ts:41-165 | So creating it succeeds, given the quoted amounts, a known ambassador and fresh identifiers |
| `Availability.SearchAgreesWithCheck` | src/modules/property-flex/property-flex.service.ts:131-188 | The availability check reports a start found inside the window free and every earlier one taken |
| `Availability.CheckForetellsCreation` | src/modules/property-flex/property-flex.service.ts:131-147 | What the check answers is what creating that stay would meet |
| `TextSearch.FindNextAvailableStart` | src/modules/property-flex/flex-availability.util.ts:21-62 | The search as it runs: the text of the least day, before the horizon, whose stay, written and read back, meets no period as read, and null exactly when there is none |
| `TextSearch.TextFitsAreFits` | src/modules/property-flex/flex-availability.util.ts:15-37 | From the year 100 on a stay fits on texts exactly when it fits on days |
| `TextSearch.TextSearchIsDaySearch` | src/modules/property-flex/flex-availability.util.ts:39-62 | From the year 100 on the answer is the text of what the search on days finds |
| `TextSearch.TextAnswerIsTheFirstBookable` | src/modules/property-flex/property-flex.service.ts:149-188 | So it is the text of the first start whose stay can be booked, when that ends inside the window |
| `Forecast.ComputeTodayKpis` | src/modules/admin/admin-dashboard.service.ts:327-371 | Arrivals, departures, guests in house, tomorrow's movements and pending confirmations are counted over the listed stays and, unless the view is temporal, the running contracts; the inventory is the units, the flex properties or both, by view, and the occupancy the share of it in house to the nearest hundredth of one percent |
| `Forecast.BuildForecastDay` | src/modules/admin/admin-dashboard.service.ts:558-601 | One day counts the stays, contracts and blocks that cover its night, the share of the units occupied to the nearest hundredth of one percent, whether it reaches 85 %, and the nightly shares of the totals rounded to the cent |
| `Forecast.BuildForecast` | src/modules/admin/admin-dashboard.service.ts:547-613 | One such entry for each day of the window, the average occupancy and the total of the revenue shown |
| `Forecast.ForecastCountsNights` | src/modules/admin/admin-dashboard.service.ts:558-611 | Over the window the occupied units add up to the nights of the stays inside it, each once, and the revenue to the nightly rate of each stay times its nights inside, to half a cent a day |
| `Forecast.WholeStayPaysItsTotal` | src/modules/admin/admin-dashboard.service.ts:566-567 | A stay wholly inside the window contributes exactly its total when its stored night count is right or its total is 0, and another amount otherwise |
| `Forecast.HouseFlow` | src/modules/admin/admin-dashboard.service.ts:343-351 | From one day to the next the house gains the arrivals and loses the departures of that day |
| `Forecast.StayAdds` | src/modules/admin/admin-dashboard.service.ts:563-569 | One more stay occupies one unit more on each day from its check-in until the day before its check-out, and earns on each its total over its nights, of which there is at least one |
| `Forecast.ContractAdds` | src/modules/admin/admin-dashboard.service.ts:571-584 | So does one more CONFIRMED or COMPLETED flex booking over the days of its contract, outside the temporal view; any other adds nothing |
| `Forecast.BlockAdds` | src/modules/admin/admin-dashboard.service.ts:586-588 | One more block blocks one unit more on each day from its first until the day before its last |
| `Forecast.AverageIsShareOfNights` | src/modules/admin/admin-dashboard.service.ts:604-609 | The average occupancy shown is the share of all unit nights of the window that are occupied, to one hundredth of one percent |
| `AvailabilityMatrix.GroupUnits` | src/modules/admin/admin-dashboard.service.ts:621-634 | Units are grouped by room type or name in the order of their first unit; without units there is one general group |
| `AvailabilityMatrix.GroupsPartitionUnits` | src/modules/admin/admin-dashboard.service.ts:624-630 | Every unit is in exactly one group and the sizes of the groups add up to the units |
| `AvailabilityMatrix.BuildCell` | src/modules/admin/admin-dashboard.service.ts:643-675 | A cell counts the covering stays and blocks of its group and never shows less than 0 available |
| `AvailabilityMatrix.BuildRow` | src/modules/admin/admin-dashboard.service.ts:642-679 | A row has a cell for each day and reports a deficit for each overbooked one |
| `AvailabilityMatrix.BuildAvailabilityMatrix` | src/modules/admin/admin-dashboard.service.ts:615-692 | A row for each group, all overbookings, and the available units of each day added up |
| `MatrixTotals.UnitsAreConserved` | src/modules/admin/admin-dashboard.service.ts:659-667 | For any day the units available are all units less the reserved and blocked ones plus the deficits reported for that day |
| `MatrixTotals.MatrixConservesUnits` | src/modules/admin/admin-dashboard.service.ts:681-689 | The summary row shows exactly that for the listed units |
| `MatrixTotals.ReservedOnce` | src/modules/admin/admin-dashboard.service.ts:648-652 | The reservations of a day are the stays on a listed unit, each once, plus those without a unit exactly when a group is keyed general |
| `MatrixTotals.AvailabilityOfDay` | src/modules/admin/admin-dashboard.service.ts:615-692 | What the summary shows for a day is the listed units, less the stays and blocks on them, each once, less the stays without a unit when a unit is filed under general, plus the deficits reported |
| `MatrixTotals.NoUnitsShowOne` | src/modules/admin/admin-dashboard.service.ts:632-634 | Without units the matrix shows one unit, taken as soon as a stay without a unit covers the day |
| `MatrixCells.StayReserves` | src/modules/admin/admin-dashboard.service.ts:648-652 | One more stay reserves, on each day from its check-in until the day before its check-out, one unit of the group its unit is in, or of the one keyed general when it has none |
| `MatrixCells.BlockBlocks` | src/modules/admin/admin-dashboard.service.ts:654-657 | One more block blocks one unit of the group of its unit |
| `MatrixCells.CellShows` | src/modules/admin/admin-dashboard.service.ts:659-675 | A cell shows the units of its group, at least one, less those reserved and blocked, never less than 0, and is sold out exactly when none is left |
| `MatrixCells.OverbookedDaysAreReported` | src/modules/admin/admin-dashboard.service.ts:660-667 | For each group exactly the days on which more is taken than there is are reported, once each, with what is missing |
| `MatrixCells.GroupIsOfUnits` | src/modules/admin/admin-dashboard.service.ts:624-630 | A group is keyed by the room type of its units, or their name when they have none, and named after its first |
| `Dashboards.GetDashboard` | src/modules/admin/admin-dashboard.service.ts:64-138 | Today's arrivals, departures, guests in house and pending confirmations, tomorrow's arrivals and departures, and the occupied units of every forecast day are numbers of rows of the tables; the totals of the window are those of the rows loaded, and the availability of every day is the listed units less the rows and blocks on them, plus the deficits |
| `Dashboards.FlexStaysCountTwice` | src/modules/admin/admin-dashboard.service.ts:205-237 | While the registry mirrors the flex bookings, a view that shows flex counts every running flex booking twice, among arrivals, guests and departures alike, once with a property filter, and the temporal view not at all |
| `Dashboards.PendingFlexCountsTwice` | src/modules/admin/admin-dashboard.service.ts:205-237 | And every pending one among the bookings that await confirmation |
| `Dashboards.CountedRows` | src/modules/admin/admin-dashboard.service.ts:205-225 | The registry rows counted are the live CONFIRMED or COMPLETED ones of the property asked for and the sources of the view, by arrival, night and departure, and the PENDING ones among those that await confirmation |
| `Dashboards.CountedContracts` | src/modules/admin/admin-dashboard.service.ts:227-237 | The flex bookings counted are the live ones, whatever the property, by the same rules |
| `RequestSlots.Client.constructor` | src/modules/cloudbeds/providers/cloudbeds-public-booking.provider.ts:95-101 | No slot is taken and nobody waits |
| `RequestSlots.Client.AcquireRequestSlot` | src/modules/cloudbeds/providers/cloudbeds-public-booking.provider.ts:491-503 | A request takes a slot while one is free and queues otherwise |
| `RequestSlots.Client.ReleaseRequestSlot` | src/modules/cloudbeds/providers/cloudbeds-public-booking.provider.ts:505-509 | A released slot goes to the first waiter |
| `RequestSlots.RunsAreFair` | src/modules/cloudbeds/providers/cloudbeds-public-booking.provider.ts:546-553 | Over any run the counter equals the holders and stays within the limit, requests wait only while it is reached, and nobody is admitted before an earlier request |
| `RequestSlots.WaiterIsAdmittedInTurn` | src/modules/cloudbeds/providers/cloudbeds-public-booking.provider.ts:498-509 | A waiter with k requests before it is admitted by exactly the k+1st release from now |
| `RequestSlots.SomebodyHoldsASlot` | src/modules/cloudbeds/providers/cloudbeds-public-booking.provider.ts:95-95 | Whoever waits can count on a release exactly when the limit is at least 1 |
| `Common.MathRound` | src/modules/property-flex/flex-pricing.service.ts:206-214 | Rounding to the nearest integer is exact to half a unit, halves going up |
| `Pricing.FlexPricing.ListActivePlans` | src/modules/property-flex/flex-pricing.service.ts:33-39 | The active plans, each once, by sort order and then minimum months |
| `Pricing.FlexPricing.SyncPropertyPrice` | src/modules/property-flex/flex-pricing.service.ts:237-252 | The property shows the least rent and the least minimum months among its active plans |
| `Pricing.FlexPricing.CreatePlan` | src/modules/property-flex/flex-pricing.service.ts:41-68 | A plan with a valid range and a free code is stored and the price shown follows |
| `Pricing.FlexPricing.UpdatePlan` | src/modules/property-flex/flex-pricing.service.ts:70-102 | A plan is changed, its custom deposit included, where its new range is valid, and the price shown follows; clearing the maximum is checked against the stored one |
| `Pricing.FlexPricing.DeletePlan` | src/modules/property-flex/flex-pricing.service.ts:104-109 | A plan is removed and the price shown follows |
| `Pricing.FlexPricing.GetQuote` | src/modules/property-flex/flex-pricing.service.ts:111-179 | The quote from the plan chosen, or from the property when it has no active plan: months, rent and their product, deposit and entry commission by each rule (thirds, halves and 70 % to the nearest cent, one rent, the custom amount, nothing), and the reservation payment of the property |
| `Pricing.QuoteAnswers` | src/modules/property-flex/flex-pricing.service.ts:111-179 | A quote is refused exactly for a deleted property or when no active plan that may be chosen fits; it quotes a fitting active plan, the one asked for if one is, or, without any active plan, the property, with the deposit, the entry commission and the reservation payment their rules say |
| `FromPrice.ResolvePlanIsBest` | src/modules/property-flex/flex-pricing.service.ts:193-197 | Without a plan id the plan chosen fits, has the greatest minimum months among those that fit, and is the first of these in the list; there is none exactly when no active plan fits |
| `FromPrice.PlanEditsKeepFromPrice` | src/modules/property-flex/flex-pricing.service.ts:237-252 | Over any run of edits of plans, and of the property that send neither a rent nor a minimum, a live property with an active plan shows the least rent and the least minimum months of its active plans |
| `FromPrice.PlanEditRestores` | src/modules/property-flex/flex-pricing.service.ts:237-252 | Whatever was shown before, the next plan edit that succeeds makes the property show them again |
| `FromPrice.StepShowsBounds` | src/modules/property-flex/property-flex.service.ts:80-106 | Of all edits exactly one of the property that sends a rent or a minimum above that of some active plan makes the property show more than its plans ask |
| `FromPrice.ModestEditsKeepBounds` | src/modules/property-flex/flex-pricing.service.ts:237-252 | Over any run of plan and property edits without such an excess both bounds hold |
| `FromPrice.FromPriceIsALowerBound` | src/modules/property-flex/flex-pricing.service.ts:111-179 | So no quote from a plan is below the rent shown or for fewer months than shown |
| `FromPrice.FromPriceIsReached` | src/modules/property-flex/flex-pricing.service.ts:181-204 | Both bounds are reached by some quote |
| `FromPrice.PropertyEditKeepsBound` | src/modules/property-flex/property-flex.service.ts:80-106 | An edit of the property keeps the rent shown a lower bound exactly when it sends no rate or one, at least 0, that is not above the rent shown before |
| `FromPrice.PropertyEditKeepsMonths` | src/modules/property-flex/property-flex.service.ts:80-106 | It keeps the months shown a lower bound exactly when it sends no minimum or one that is not above the months shown before |
| `FromPrice.RaisedEditShowsTooMuch` | src/modules/property-flex/property-flex.service.ts:80-106 | One plan at 400 from two months on, and a property edited to 401 from three on: some quote is cheaper and some shorter than shown |
| `FromPrice.FailedEditsChangeNothing` | src/modules/property-flex/flex-pricing.service.ts:70-109 | Of all edits exactly the deletion of a plan, and an accepted update that changes one, of a deleted property fail after changing something |
| `FromPrice.DeletionFailsHalfway` | src/modules/property-flex/flex-pricing.service.ts:104-109 | The plan of a deleted property is deleted by a call that fails |
| `PlanRows.CreationStores` | src/modules/property-flex/flex-pricing.service.ts:41-68 | A plan is stored exactly when the property is live, its range in order and its identifier and code free |
| `PlanRows.UpdateAnswers` | src/modules/property-flex/flex-pricing.service.ts:70-75 | An update is stored exactly for a plan there is whose range stays in order, as far as a bound is sent, and whose code, if sent, is free; with a deleted property it is stored and fails |
| `PlanRows.UpdateStores` | src/modules/property-flex/flex-pricing.service.ts:77-99 | Stored, every column of the plan is the one sent, or as before when none is; the maximum can be cleared and the custom deposit taken away; no other plan changes |
| `PlanRows.DeletionStores` | src/modules/property-flex/flex-pricing.service.ts:104-109 | A deletion takes the plan and no other |
| `PlanRows.PropertyEditStores` | src/modules/property-flex/property-flex.service.ts:80-106 | An edit of a live property stores the rent sent, or 0 for one below, and the minimum sent |
| `FromPrice.SharesAreExactToHalfACent` | src/modules/property-flex/flex-pricing.service.ts:206-229 | Thirds, halves and 70 % of a rent are within half a cent |
| `Tokens.TokenService.constructor` | src/modules/auth/token.service.ts:22-26 | No session is open |
| `Tokens.TokenService.CreateSession` | src/modules/auth/token.service.ts:22-42 | A login opens a session under a new token |
| `Tokens.TokenService.RotateRefreshToken` | src/modules/auth/token.service.ts:44-71 | A live token is revoked and replaced; a revoked or expired one revokes every session of its user |
| `Tokens.TokenService.RevokeSession` | src/modules/auth/token.service.ts:73-79 | A logout revokes the session of its token |
| `Tokens.TokenService.RevokeAllUserSessions` | src/modules/auth/token.service.ts:81-86 | Every session of a user is revoked, and no other |
| `Tokens.AcceptedAtMostOnce` | src/modules/auth/token.service.ts:44-71 | Over any run no refresh token is accepted twice |
| `Tokens.ReuseRevokesEverything` | src/modules/auth/token.service.ts:54-62 | A known token is accepted exactly when it is unrevoked, unexpired and its successor is new; a revoked or expired one leaves its user without an open session |
| `Tokens.ReplayLogsOut` | src/modules/auth/token.service.ts:54-69 | Presenting a token once more after it was accepted, however much later, leaves its user without an open session |
| `Tokens.SessionsNeverOutnumberLogins` | src/modules/auth/token.service.ts:22-86 | Over any run the open sessions of a user never outnumber those they began with plus their logins |
| `Tokens.RefusedCallsChangeNothing` | src/modules/auth/token.service.ts:44-71 | A call is refused after a change exactly in two cases: a replayed or expired token of a user with an open session, and a live token whose successor is taken, which only revokes its session |
| `Tokens.ClashLogsOut` | src/modules/auth/token.service.ts:64-70 | Two logins and a refresh that draws the other token: it fails and closes the session it came from |
| `Tokens.LoginOpens` | src/modules/auth/token.service.ts:22-42 | A login opens one session of its user with its expiry, unless the token drawn is taken |
| `Tokens.RotationContinues` | src/modules/auth/token.service.ts:64-70 | An accepted rotation opens a session of the same user with the new expiry under the token drawn, revokes the one it came from, and leaves every other as it is |
| `Tokens.RefusalRevokes` | src/modules/auth/token.service.ts:54-62 | An unauthorized rotation revokes every session of the user whose token it was and no other, and nothing for an unknown token |
| `Tokens.LogoutsRevoke` | src/modules/auth/token.service.ts:73-86 | A logout revokes the session of its token and no other, a logout everywhere those of its user and no others |
| `Stores.Store.Insert` | src/modules/bookings/bookings.service.ts:29-42 | A new booking starts with the one history entry of its status |
| `Stores.Store.RepriceIfPending` | src/modules/flex-bookings/flex-bookings.service.ts:362-377 | A PENDING commission takes the new rate and base, and the amount they make |
| `Stores.Store.GroupByAmbassador` | src/modules/commissions/commission-settlements.service.ts:147-191 | The loop groups every eligible commission under its ambassador and keeps their running totals |
| `Stores.Store.Reduce` | src/modules/commissions/commission-settlements.service.ts:201-204 | The grand total is the sum of the group totals |
| `Stores.Store.FilterEligible` | src/modules/commissions/commission-settlements.service.ts:55-65 | The commissions approved, unattached, with an ambassador and a live confirmed or completed booking, for the ambassadors asked for |
| `Stores.Store.ListByProfile` | src/modules/commissions/commission-settlements.service.ts:268-280 | Each of them is listed once, under its ambassador |
| `Stores.Store.TotalOf` | src/modules/commissions/commission-settlements.service.ts:286-289 | The total of a list counts each commission in it once |
| `Stores.Store.DraftAll` | src/modules/commissions/commission-settlements.service.ts:284-305 | One draft of the right total for each ambassador, or a clash of identifiers |
| `Stores.Store.PickAwaiting` | src/modules/payments/flex-booking-payments.service.ts:292-300 | At most so many of the live pending bookings with an amount due, and all of them when there are fewer |
| `Stores.Store.ReconcileOne` | src/modules/payments/flex-booking-payments.service.ts:303-317 | One booking is synced and found to have moved when the sync did not throw and its status changed |
| `Reconciliation.SyncReceives` | src/modules/payments/flex-booking-payments.service.ts:484-498 | A sync does what the sequence of notices it handled does, the one that throws included |
| `Dashboards.LoadBookings` | src/modules/admin/admin-dashboard.service.ts:205-225 | Each live registry row of the view, and of the property asked for, is listed once, with its unit |
| `Dashboards.LoadFlexBookings` | src/modules/admin/admin-dashboard.service.ts:227-237 | Each live flex booking that is not cancelled is listed once, whatever the property asked for |
| `AvailabilityMatrix.PutUnit` | src/modules/admin/admin-dashboard.service.ts:625-629 | A unit goes to the group of its key, made when it is not there yet |
| `AvailabilityMatrix.Summarise` | src/modules/admin/admin-dashboard.service.ts:681-689 | The available units of each day added up over the rows |

## Left out

- Real concurrency: each service call is one atomic step, also where the code checks outside its transaction.
- Authorisation, DTO validation, notifications, e-mails, webhook signatures and logging.
- Client data, currencies, notes, unit availability blocks and merchant orders; amounts are added and rents compared whatever their currency, as in the code.
- Reservation intents, and expiry and tracking tokens of ambassador sessions: `confirmFromCloudbeds` and `handleCloudbedsReservation` begin where the intent is resolved, the session accepted and the payload parsed.
- `BookingsService.softDelete` and `cancelForBooking`, which no service calls, and the creation of properties and ambassadors.
- Parsing of Cloudbeds payloads, the retry loop of its client and the bodies of its requests.
- Cryptography: tokens are drawn fresh and their hash is taken to be one to one.
- Time zones and the hour of a day: days are plain day numbers, and today is the same day in UTC and locally.
- Notices.FirstConfirmingActsAlone: for notices that name, for a payment already on a row, the booking of that row, as a payment has one external reference.
- Forecast.BuildForecastDay: labels and the currency of the revenue are not modelled.
- TextSearch.TextSearchIsDaySearch: for stays of zero months or more.
- Dates are read from digits and hyphens; other texts that the Date constructor or `Number` accepts are not modelled.
- Calendar.AddMonths: the rule for the years 0 to 99 is modelled in IsoDates only; the search starts from today.
- Stores.Store.ProcessNotice: requires at most one pending row per booking, which every reachable state has, so that the pending row it finds is the latest.
- FlexRows.UpdateChangesFlex: months that are sent are at least one, as the request validation demands; the code ignores a 0.
- PaymentRows.ApprovedRows: for at most one pending row per booking, which every reachable state has.
- Forecast.HouseFlow: for stays whose check-out is not before their check-in.
- MatrixTotals.MatrixConservesUnits: for units with distinct identifiers, which the database guarantees.
- AvailabilityMatrix.BuildAvailabilityMatrix: the cell of a day is taken by its index, the days of a row being distinct.
- RequestSlots.RunsAreFair: a request asks once and gives back only a slot it holds, as `runWithConcurrencyLimit` does.
- Pricing.FlexPricing.GetQuote: labels, codes and included services of a quote are not modelled.
- Lists, searches, label mapping, the agenda and the reservation lists of the dashboard.
