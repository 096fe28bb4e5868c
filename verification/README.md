# Verified model of the shop back end

This project models the money and stock core of the shop back end and proves what its services promise over every
run. Money is integer cents, as the DECIMAL(14,2) columns fix it; weighted costs are exact reals. A service is a class
whose methods update its tables, each method equal to a function on a snapshot of those tables; the theorems are about
runs of those functions, and where the service reads first and writes later under a guard, about every interleaving.

| file | what it holds |
|---|---|
| `Prelude.dfy`, `Strings.dfy` | options, refusals, outcomes; trimming and folding of what people type |
| `ConsignmentLifecycle.dfy`, `UnitStates.dfy` | the two transition tables |
| `ConsignmentModel.dfy` | consignments, lines, units and ledger, and what each of the seven calls does to them |
| `ConsignmentInvariant.dfy` | the invariant tying the four tables together, kept by every call |
| `ConsignmentRuns.dfy` | status against derived balance, phones, agreement, custody, termination, stranded phones |
| `ConsignmentCalls.dfy` | what each call does to the deal, the phones and the debt, and when it goes ahead |
| `ConsignmentOffers.dfy` | whose offer is on the table, tracked over every run |
| `ConsignmentExamples.dfy` | runs that show where the protocol departs from its description |
| `ConsignmentInterleaving.dfy` | reads and guarded writes of any number of clients, refined to the atomic machine |
| `ConsignmentService.dfy` | the service itself, in place, against the functions |
| `CustodyScan.dfy` | what the hand-over scan really checks |
| `Channels.dfy`, `DayCash.dfy` | the per-channel expected figures, and expected cash computed two ways |
| `Closing.dfy` | counting and signing off a day, and the discrepancies it opens |
| `Discrepancies.dfy` | deciding discrepancies and the employee-debt ledger, with owners interleaved |
| `Books.dfy` | payments, corrections, expenses and locked days |
| `Csv.dfy` | the parser, the delimiter detection and the RFC 4180 writer it inverts |
| `ImportRows.dfy`, `Imports.dfy` | column mapping, row verdicts, the guarded commit, the database's identifier rules and the stock it merges |
| `ImportExamples.dfy` | one sheet whose duplicate passes the preview |
| `Luhn.dfy` | the check digit |
| `Billing.dfy` | high-water-mark assessment and plan versions |
| `StockCost.dfy` | weighted-average receiving |

## Where the code differs from what it says

Each of these is the code's behaviour, kept in the model and stated as a lemma.

- The proposal is described as one amount for the consignment, but every line carries the whole agreed amount, so what
  is owed after a sale is the agreed amount exactly when one phone was reported sold
  (`ConsignmentRuns.OwedAmountIsAgreedIffOnePhoneSold`; `ConsignmentExamples.TwoPhonesOweTwiceTheAgreement`).
- A sale of some of the phones leaves the others in custody for ever: nothing can sell, return or release them
  (`ConsignmentRuns.UnsoldPhonesStayOut`; `ConsignmentExamples.SecondPhoneStaysOut`).
- A counterparty without a company on the platform can be given phones, but nobody can confirm receipt: a new
  consignment can get into custody exactly when its counterparty is another company, and otherwise phones once handed
  over stay out for ever (`ConsignmentRuns.CustodyReachableIff`, `ConsignmentRuns.HandedOverForGood`;
  `ConsignmentExamples.PhonesGivenToNobody`).
- In every run a side can accept its own offer exactly when the deal is disputed or the offer is the source's own
  counter-offer, and the side it was made to can accept it exactly when it is not such a counter-offer
  (`ConsignmentOffers.OwnOfferIsAcceptedIff`, `ConsignmentOffers.OtherSidesOfferIsAcceptedIff`;
  `ConsignmentExamples.SourceAcceptsItsOwnOffer`, `ConsignmentExamples.DestinationCannotAnswer`).
- A hand-over scan is meant to refuse a partial confirmation; one phone scanned twice passes for two
  (`CustodyScan.AcceptedScanIsCompleteIff`; `CustodyScan.PartialScanPasses`). A phone without an identifier is only
  recognised as the first of those sent (`CustodyScan.ScanAcceptedIff`).
- A debt entry sent again is meant to be answered; the bound is looked at before the request id, so it is exactly while
  as much is still owed once more (`Discrepancies.EntrySentAgainIsAnsweredIff`;
  `Discrepancies.RetriedRepaymentIsRefused`).
- A cash difference signed off at closing becomes a discrepancy only when a cash count was on record beforehand
  (`Closing.CashDifferenceOpensIffCounted`; `Closing.UncountedDifferenceOpensNothing`).
- Confirming a fixed expense rewrites the expense total of its due date even when that day is locked
  (`Books.ConfirmRewritesLockedDayIffFixedAndDue`; `Books.FixedExpenseRewritesLockedDay`).
- A request id used again with another payload is meant to be refused; a correction is replayed instead exactly when its
  payment is the same and a bar in its texts makes them run together (`Books.ChangedRequestIsReplayedIff`;
  `Books.BarredTextsCollide`).
- A serial number is looked up in the shop without its dashes and spaces but kept with them, so one the shop holds passes
  the preview when it has any (`ImportRows.HeldSerialPassesPreviewIff`; `ImportRows.DashedSerialIsMissed`).
- A bad row is meant to fail alone. That ends at the preview: a commit goes through exactly when the database's
  identifier rules accept every row, and otherwise brings nothing in; a serial number that is not under the unique index
  is doubled (`Imports.CommitGoesThroughIff`; `ImportExamples.DashedDuplicateBlocksItsSheet`,
  `ImportExamples.DashedDuplicateIsDoubled`).
- A file is detected with the delimiter it was written with exactly when the header's separators prevail over the
  delimiters left unquoted in it (`Csv.DetectionRecoversDelimiter`; `Csv.LoneHeaderLosesItsDelimiter`,
  `Csv.StrayDelimiterWins`).
- A scheduled price can change the plan answered for a past moment when no plan was in force then
  (`Billing.SchedulingKeepsThePastIff`; `Billing.SchedulesRewriteThePast`).
- Importing more of a product already in stock keeps the old unit cost, so the value of the stock rises by what was paid
  exactly when the product is new to the branch or costs the same, unlike every other inflow
  (`Imports.ImportAddsWhatWasPaidIff`; `Imports.ImportUndervaluesCables`, `Imports.SecondCostIsLost`).

## Model

| member | source | states |
|---|---|---|
| `ConsignmentLifecycle.OwnOfferAcceptance` | src/consignment/consignments.service.ts:923-927 | a side can accept its own offer exactly after a dispute or, for the source, after its own counter-offer; with the proposer tracked it never can |
| `ConsignmentModel.ClaimedUnitsExist` | src/consignment/consignments.service.ts:147-193 | a successful claim touches only phones that exist and loses none |
| `ConsignmentInvariant.ClaimSpec` | src/consignment/consignments.service.ts:147-193 | the compare-and-swap loop succeeds if and only if the phones are distinct, in stock and in this branch, and then takes out just those |
| `ConsignmentInvariant.RaisedIsSoldTotal` | src/consignment/consignments.service.ts:521-574 | the receivable raised is what the lines it marks sold were agreed at, and positive when any line is chosen |
| `ConsignmentInvariant.GivingKeepsUnits` | src/consignment/consignments.service.ts:930-951 | giving up the phones of lines that stop being live keeps units and live lines in correspondence |
| `ConsignmentInvariant.GuardedBeforeSale` | src/consignment/consignment-lifecycle.ts:92-155 | decide, custody, sale and return only go ahead before a sale, while the ledger is empty |
| `ConsignmentInvariant.SettlingKeepsDeal` | src/consignment/consignments.service.ts:889-902 | a confirmation or write-off of at most what is owed leaves the status that settleIfClear writes in step with the balance |
| `ConsignmentInvariant.OwedMeansDisposed` | src/consignment/consignment-money.ts:53-55 | money is owed only on a sold, unsettled consignment, and never more than the receivable |
| `ConsignmentInvariant.ApplyKeepsInv` | src/consignment/consignments.service.ts:83-902 | every call keeps the four tables consistent |
| `ConsignmentInvariant.RunKeepsInv` | src/consignment/consignments.service.ts:83-902 | so does every run |
| `ConsignmentRuns.StatusAgreesWithBalance` | src/consignment/consignments.service.ts:594-793 | in every run each money status holds exactly when the derived balance says so, one receivable at most, balance never negative |
| `ConsignmentRuns.OnePhoneOneLine` | src/consignment/consignments.service.ts:147-193 | in every run the phones out on consignment and the live lines are in one-to-one correspondence |
| `ConsignmentRuns.UnitWritesAreEdges` | src/inventory/unit-state-machine.ts:19-51 | every unit status a call writes is an edge of the unit state machine |
| `ConsignmentRuns.GoFollowsRule` | src/consignment/consignment-lifecycle.ts:170-204 | a guarded call that goes ahead takes its action's rule as a side that rule allows |
| `ConsignmentRuns.StatusChangesAreEdges` | src/consignment/consignment-lifecycle.ts:92-155 | every status change, settlement's included, is an edge of the transition table |
| `ConsignmentRuns.RunsFollowEdges` | src/consignment/consignment-lifecycle.ts:92-155 | so between any two neighbouring states of any run |
| `ConsignmentRuns.AgreedAmountIsFinal` | src/consignment/consignments.service.ts:337-371 | once agreed, the amount is the positive offer on the table and never changes on the consignment or on any line |
| `ConsignmentRuns.AgreedAmountStands` | src/consignment/consignments.service.ts:337-371 | so over every later run |
| `ConsignmentRuns.AmountsMoveOnlyWhileMutable` | src/consignment/consignment-lifecycle.ts:207-216 | an offer or agreement only changes during the negotiation, never where amountIsMutable says it cannot |
| `ConsignmentRuns.OwedAmountIsAgreedIffOnePhoneSold` | src/consignment/consignments.service.ts:521-574 | the receivable is the agreed amount once per sold phone, so equals it if and only if one phone was sold |
| `ConsignmentRuns.SaleRaisesAgreedPerPhone` | src/consignment/consignments.service.ts:521-529 | at the call reportSold raises the agreed amount once per line it marks, so exactly that amount if and only if it marks one |
| `ConsignmentRuns.CustodyTakesBothCompanies` | src/consignment/consignments.service.ts:393-469 | no state from in_custody on is reached without a hand-over by the source and, later, a confirmation by the destination |
| `ConsignmentRuns.ManualDealNeverInCustody` | src/consignment/consignments.service.ts:393-410 | in every run a consignment whose counterparty is no other company never gets into custody |
| `ConsignmentRuns.CustodyReachableIff` | src/consignment/consignments.service.ts:393-482 | a new consignment can get into custody if and only if its counterparty is another company |
| `ConsignmentRuns.HandedOverForGood` | src/consignment/consignments.service.ts:393-482 | handed over to no other company, a consignment never changes again and its phones stay consigned_out in every later run |
| `ConsignmentRuns.ProgressLowersMeasure` | src/consignment/consignment-lifecycle.ts:115-155 | after acceptance every effective call but a payment report lowers (phases ahead, cents outstanding), any other keeps both |
| `ConsignmentRuns.AcceptedDealsTerminate` | src/consignment/consignments.service.ts:498-793 | so steps, confirmations and write-offs are bounded by the phases and the receivable |
| `ConsignmentRuns.SaleFreezesLines` | src/consignment/consignments.service.ts:498-574 | no later call touches the lines of a sold consignment |
| `ConsignmentRuns.UnsoldPhonesStayOut` | src/consignment/consignments.service.ts:498-574 | a phone not reported sold with the others stays consigned_out in every later run |
| `ConsignmentCalls.TransitionIff` | src/consignment/consignment-lifecycle.ts:92-204 | the table kept by action, read by state: who may do what where, and where it leads |
| `ConsignmentCalls.UnitEdgeIff` | src/inventory/unit-state-machine.ts:19-51 | the unit table read from its targets |
| `ConsignmentCalls.StrangerIsRefused` | src/consignment/consignments.service.ts:907-921 | a company that is neither side gets the answer of a deal that does not exist |
| `ConsignmentCalls.CreatedIff` | src/consignment/consignments.service.ts:83-193 | a consignment is made if and only if of one to fifty different free phones, for a counterparty open to it, under a new request id |
| `ConsignmentCalls.CreatedDeal` | src/consignment/consignments.service.ts:120-215 | what it holds, and that its phones and no others go out |
| `ConsignmentCalls.CreateSentAgain` | src/consignment/consignments.service.ts:91-100 | the same request sent again is answered and changes nothing |
| `ConsignmentCalls.DecidedIff` | src/consignment/consignments.service.ts:301-345 | a decision goes ahead if and only if it is that side's to take, with its amount or reason, on the version seen |
| `ConsignmentCalls.DecisionIs` | src/consignment/consignments.service.ts:346-381 | what it leaves of the deal and of every line |
| `ConsignmentCalls.GoesAheadIff` | src/consignment/consignments.service.ts:393-869 | when a hand-over, a sale or a return step goes ahead |
| `ConsignmentCalls.StepIs` | src/consignment/consignments.service.ts:450-869 | what it leaves of the deal and of every line |
| `ConsignmentCalls.PhoneIsSent` | src/consignment/consignments.service.ts:540-951 | every live phone of a deal goes where the call sends it: sold, back in stock, aside, or it stays out |
| `ConsignmentCalls.ReturnedPhone` | src/consignment/consignments.service.ts:834-858 | a phone taken back damaged is set aside as faulty, one taken back good is in stock |
| `ConsignmentCalls.ReportedIff` | src/consignment/consignments.service.ts:654-739 | a payment is put down if and only if it fits what is owed and its request id is new; it says what was said and moves no debt |
| `ConsignmentCalls.ReportIsReplayedIff` | src/consignment/consignments.service.ts:666-682 | a used request id is replayed if and only if it was the same payment |
| `ConsignmentCalls.ReportSentAgain` | src/consignment/consignments.service.ts:666-682 | the same report sent again changes nothing, and with another amount is refused |
| `ConsignmentCalls.ConfirmedIff` | src/consignment/consignments.service.ts:604-652 | a report is confirmed if and only if by the creditor, once, while it fits; the debt falls by exactly its amount |
| `ConsignmentCalls.ForgivenIff` | src/consignment/consignments.service.ts:752-795 | a debt is written off if and only if by the creditor, for a reason, by no more than is owed; it falls by exactly that |
| `ConsignmentCalls.SaleEntry` | src/consignment/consignments.service.ts:556-574 | a sale puts one receivable on the ledger, the agreed amount per line sold |
| `ConsignmentCalls.OnlyTheCreditorLowersDebt` | src/consignment/consignment-scope.ts:1-60 | in every run what is owed falls only by an act of the creditor and rises only by a sale of the other side |
| `ConsignmentCalls.LedgerIsTheCreditors` | src/consignment/consignments.service.ts:604-795 | in every run each confirmation and each write-off is the creditor's |
| `ConsignmentOffers.RequestedIsTheSourcesOffer` | src/consignment/consignments.service.ts:923-927 | in every run each deal has a proposer, and while only requested it is the source |
| `ConsignmentOffers.OwnOfferIsAcceptedIff` | src/consignment/consignments.service.ts:314-345 | in every run a side can accept the offer it made itself if and only if the deal is disputed or it is the source's own counter-offer |
| `ConsignmentOffers.OtherSidesOfferIsAcceptedIff` | src/consignment/consignments.service.ts:314-345 | in every run the side an offer was made to can accept it if and only if it is not a counter-offer of the source |
| `ConsignmentOffers.CounterIsNotAnswered` | src/consignment/consignment-lifecycle.ts:170-204 | the destination can neither accept nor counter while the status is counter_proposed |
| `ConsignmentExamples.SourceAcceptsItsOwnOffer` | src/consignment/consignments.service.ts:301-385 | create, counter by the destination, counter by the source, accept by the source |
| `ConsignmentExamples.DestinationCannotAnswer` | src/consignment/consignments.service.ts:301-385 | after the source's counter-offer to a counter-offer the destination's acceptance or counter-offer changes nothing |
| `ConsignmentExamples.PhonesGivenToNobody` | src/consignment/consignments.service.ts:301-482 | create for a manual counterparty, dispute, accept and send by the source: the phones are handed over |
| `ConsignmentExamples.NobodyKeepsThePhones` | src/consignment/consignments.service.ts:393-482 | and stay out whatever follows |
| `ConsignmentExamples.TwoPhonesOweTwiceTheAgreement` | src/consignment/consignments.service.ts:521-574 | two phones agreed at 500 and both sold owe 1000 |
| `ConsignmentExamples.SecondPhoneStaysOut` | src/consignment/consignments.service.ts:521-574 | with only the first of them sold the second stays out whatever follows |
| `ConsignmentInterleaving.WinnerActsOnCurrentRows` | src/consignment/consignments.service.ts:346-381 | a guarded write that wins acts on the current consignment and current lines: it is the whole call made at that instant |
| `ConsignmentInterleaving.MoveIsCall` | src/consignment/consignments.service.ts:450-478 | every read or write of the interleaved machine is a whole call or changes no table |
| `ConsignmentInterleaving.InterleavingRefinesAtomic` | src/consignment/consignments.service.ts:521-574 | every interleaved run reaches a state the atomic machine reaches with the calls in order of effect |
| `ConsignmentInterleaving.InterleavingKeepsInv` | src/consignment/consignments.service.ts:825-869 | so the invariant holds under interleaving |
| `ConsignmentInterleaving.EachVersionWonOnce` | src/consignment/consignments.service.ts:346-381 | two winning writes on one consignment read different versions, the later the greater |
| `ConsignmentService.ConsignmentsService.CreateConsignment` | src/consignment/consignments.service.ts:83-215 | create, claiming phone by phone, is the create step or leaves every table as it was |
| `ConsignmentService.ConsignmentsService.ReleaseUnits` | src/consignment/consignments.service.ts:930-951 | the release loop cancels the live lines and puts just their phones back in stock |
| `ConsignmentService.ConsignmentsService.DecideConsignment` | src/consignment/consignments.service.ts:301-385 | decide is its step, refusals included |
| `ConsignmentService.ConsignmentsService.CustodyStep` | src/consignment/consignments.service.ts:393-482 | custody is its step: refusals, and the scan compared without dashes, spaces and letter case |
| `ConsignmentService.ConsignmentsService.SumAgreed` | src/consignment/consignments.service.ts:521-529 | the reduce over the chosen lines is the receivable |
| `ConsignmentService.ConsignmentsService.MarkSold` | src/consignment/consignments.service.ts:540-554 | the sale loop marks the chosen lines sold and their phones sold, and nothing else |
| `ConsignmentService.ConsignmentsService.ReportSale` | src/consignment/consignments.service.ts:498-586 | reportSold is its step |
| `ConsignmentService.ConsignmentsService.TakeBack` | src/consignment/consignments.service.ts:834-858 | the return loop takes back the lines in custody and puts their phones in stock or aside as faulty |
| `ConsignmentService.ConsignmentsService.Return` | src/consignment/consignments.service.ts:804-873 | returnFlow is its step |
| `ConsignmentService.ConsignmentsService.SettleWhenClear` | src/consignment/consignments.service.ts:889-902 | the two guarded status updates of settleIfClear |
| `ConsignmentService.ConsignmentsService.Report` | src/consignment/consignments.service.ts:654-739 | reporting a payment is its step, replays and changed replays included |
| `ConsignmentService.ConsignmentsService.Confirm` | src/consignment/consignments.service.ts:604-652 | confirming a payment is its step |
| `ConsignmentService.ConsignmentsService.WriteOff` | src/consignment/consignments.service.ts:752-795 | forgive is its step |
| `CustodyScan.AcceptedScanIsCompleteIff` | src/consignment/consignments.service.ts:418-448 | an accepted scan covers every phone handed over if and only if as many different identifiers were scanned as handed over; with distinct ones, if and only if none was scanned twice |
| `CustodyScan.ScanAcceptedIff` | src/consignment/consignments.service.ts:434-447 | a scan is accepted if and only if it reads as an identifier sent, an empty one only as the first |
| `Strings.FoldIgnoresSeparators` | src/consignment/consignments.service.ts:435-437 | a dash or space anywhere makes no difference to a scan |
| `Strings.FoldIgnoresCase` | src/consignment/consignments.service.ts:435-437 | nor does the case of a letter |
| `Strings.FoldKeepsPlain` | src/consignment/consignments.service.ts:435-437 | digits and capitals are compared as they stand |
| `CustodyScan.PartialScanPasses` | src/consignment/consignments.service.ts:418-448 | one phone scanned twice confirms two |
| `Channels.BuildChannels` | src/closing/channels.ts:103-185 | the loops over a map of running totals and the sort give exactly the specified rows |
| `Channels.RowsAreTheBuckets` | src/closing/channels.ts:103-174 | a row is present if and only if it is cash, an active account or a bucket that saw money, with that bucket's figures |
| `Channels.KeysAreUniqueAndSorted` | src/closing/channels.ts:103-185 | keys are unique and rows follow the comparator |
| `Channels.CashFirstUnattributedLast` | src/closing/channels.ts:176-185 | cash is first and always there, the unattributed bucket last |
| `Channels.RowsAreNamed` | src/closing/channels.ts:150-165 | a row is called cash, by its account's name, or unattributed |
| `Channels.AccountsStandInTheShopsOrder` | src/closing/channels.ts:176-185 | accounts stand in the shop's order, equals by name |
| `Channels.ExpectedFiguresConserveMoney` | src/closing/channels.ts:27-33 | the expected figures add up to the sum of all movements, each with the sign of its component in the table |
| `Channels.ReorderingChangesNoRow` | src/closing/channels.ts:103-174 | reordering movements changes neither which rows there are nor any figure |
| `DayCash.ExpectedCashIsTheCashRow` | src/closing/closing.service.ts:95-165 | for every set of records the expected cash of close is the cash row's expected figure, component by component |
| `DayCash.GroupedSum` | src/closing/closing.service.ts:699-790 | grouping by method and account loses no money of any channel |
| `DayCash.ExpensesAgree` | src/analytics/rollup.service.ts:123-146 | the movements' expense rows and the rollup's expense rule pick the same cash |
| `DayCash.NothingHappened` | src/closing/closing.service.ts:95-165 | a day without records expects nothing |
| `DayCash.SaleCounts` | src/closing/closing.service.ts:710-727 | a sale counts in its branch on its day in the channel it was paid through, and nowhere else |
| `DayCash.PaymentCounts` | src/closing/closing.service.ts:729-748 | a refund payout or settlement lowers the cash and its channel of its branch on its confirmation day by its amount, and nothing else |
| `DayCash.ExpenseCounts` | src/closing/closing.service.ts:750-761 | an expense the same, on its confirmation day or, if fixed, its due date |
| `DayCash.CorrectionCounts` | src/closing/closing.service.ts:763-782 | an approved correction comes back, on its day, to the channel its target left |
| `Closing.UpsertSpec` | src/closing/closing.service.ts:580-608 | recording a channel replaces or adds just that channel's row |
| `Closing.FreezeSpec` | src/closing/closing.service.ts:249-283 | freezing keeps every count and gives each channel its final figures |
| `Closing.OpenedMatches` | src/closing/closing.service.ts:296-318 | the loop opens exactly one discrepancy per row that is out, of its difference |
| `Closing.CloseSpec` | src/closing/closing.service.ts:52-318 | what a sign-off leaves: frozen rows, matching discrepancies, cash figures that agree with the cash row |
| `Closing.LockedIsAbsorbing` | src/closing/closing.service.ts:65-71 | after locking no call changes anything |
| `Closing.EveryRowAddsUp` | src/closing/closing.service.ts:499-630 | in every run each row is its signed components, its difference is count minus expected, and a skipped row has no count |
| `Closing.DiscrepanciesAreTheDifferences` | src/closing/debt-rules.ts:160-167 | in every run a locked closing has exactly one discrepancy, of the difference, per counted row that is out, and no other |
| `Closing.CashDifferenceOpensIffCounted` | src/closing/closing.service.ts:166-318 | a sign-off opens a cash discrepancy if and only if there is a difference and a cash count was on record before the call |
| `Closing.UncountedDifferenceOpensNothing` | src/closing/closing.service.ts:166-318 | a day nobody counted, signed off with any figure, records the difference and opens nothing |
| `Closing.RecordedIff` | src/closing/closing.service.ts:499-553 | a count is recorded if and only if it is a figure or a reasoned skip, for a channel the day has, on a day not locked |
| `Closing.RecordedSheet` | src/closing/closing.service.ts:555-625 | it replaces that channel's row and no other, and the day is counted if and only if every channel is accounted for |
| `Closing.ClosedIff` | src/closing/closing.service.ts:60-187 | a day is signed off if and only if once and on one cash figure, the count on record or the one given |
| `Closing.ClosingService.Count` | src/closing/closing.service.ts:499-630 | recordCount is its step, refusals included |
| `Closing.ClosingService.FreezeChannels` | src/closing/closing.service.ts:249-283 | the freezing loop |
| `Closing.ClosingService.OpenDiscrepancies` | src/closing/closing.service.ts:296-318 | the discrepancy loop |
| `Closing.ClosingService.SignOff` | src/closing/closing.service.ts:52-318 | close is its step, refusals included |
| `Discrepancies.ResolutionWritesItsPlan` | src/closing/discrepancies.service.ts:72-161 | however owners interleave, a decided discrepancy wrote exactly its planned rows against a named person, an undecided one none |
| `Discrepancies.ResolvedAtMostOnce` | src/closing/discrepancies.service.ts:110-161 | no discrepancy is resolved twice |
| `Discrepancies.WinnerIsWholeResolve` | src/closing/discrepancies.service.ts:110-161 | a decision that wins is the whole call made at that instant |
| `Discrepancies.BalanceIsAssignedMinusSettled` | src/closing/debt-rules.ts:44-152 | each person's balance is shortages assigned as debt less what was settled, and never negative |
| `Discrepancies.DebtsAreShortages` | src/closing/debt-rules.ts:80-90 | however owners interleave, a debt is only ever made of a shortage and of a named person's |
| `Discrepancies.SurplusIsNeverCharged` | src/closing/debt-rules.ts:80-107 | under a surplus no charge is left standing against anyone |
| `Discrepancies.DecidedIff` | src/closing/debt-rules.ts:63-90 | a decision is taken if and only if on an open difference, with a reason, and on the right person or nobody |
| `Discrepancies.DecidedRow` | src/closing/discrepancies.service.ts:110-130 | it changes that discrepancy only, by the decision and one version |
| `Discrepancies.DecisionWrites` | src/closing/debt-rules.ts:91-107 | the rows it puts on the ledger, in order |
| `Discrepancies.DecisionMovesBalance` | src/closing/debt-rules.ts:44-46 | a debt adds the missing amount to the person, every other decision leaves balances alone |
| `Discrepancies.AddedIff` | src/closing/debt-rules.ts:119-152 | an entry on its own is made if and only if with a reason, arriving rightly, against what is owed, under a new id |
| `Discrepancies.EntrySentAgainIsAnsweredIff` | src/closing/discrepancies.service.ts:217-237 | the same entry sent again is answered if and only if as much is still owed once more |
| `Discrepancies.RetriedRepaymentIsRefused` | src/closing/discrepancies.service.ts:217-237 | a full repayment sent again is refused |
| `Discrepancies.OpenedDiscrepancyCanBeDecided` | src/closing/debt-rules.ts:63-107 | every discrepancy a closing opens, in any run, has an amount that can be decided |
| `Discrepancies.PlannedTotals` | src/closing/debt-rules.ts:63-107 | a plan's rows add its charge, net of a waiver, to the responsible person and nobody else |
| `Discrepancies.DiscrepanciesService.Resolve` | src/closing/discrepancies.service.ts:72-161 | resolve is its step, refusals included |
| `Discrepancies.DiscrepanciesService.AddEntry` | src/closing/discrepancies.service.ts:210-253 | addEntry is its step, replays and refusals included |
| `Books.OneCorrectionPerPayment` | src/corrections/correction-rules.ts:24-67 | in every run a payment has at most one open or approved correction, which copies it |
| `Books.ConfirmedPaymentsAreImmutable` | src/corrections/corrections.service.ts:173-216 | no call edits a confirmed payment, bar a payout's back-reference |
| `Books.ConfirmedPaymentsStand` | src/corrections/corrections.service.ts:173-216 | so over every later run |
| `Books.ApprovedMatchesCorrected` | src/corrections/correction-sql.ts:18-59 | approved corrections add up to the corrected payments, each once |
| `Books.HistoryAgreesWithLiveSettlement` | src/analytics/rollup.service.ts:226-266 | in every run, per branch and method, the day-by-day history of payments minus corrections is what is settled right now |
| `Books.LockedDayIsKept` | src/corrections/correction-rules.ts:107-116 | no call puts a correction or a variable expense on a locked day or unlocks it |
| `Books.LockedDayStands` | src/expenses/expenses.service.ts:191-222 | over every later run a locked day's corrections and variable expenses recompute to the locked figures |
| `Books.ConfirmRewritesLockedDayIffFixedAndDue` | src/expenses/expenses.service.ts:199-245 | a confirmation changes a locked day's expense total if and only if it is a fixed expense of the branch due that day |
| `Books.FixedExpenseRewritesLockedDay` | src/expenses/expenses.service.ts:199-245 | such calls: rent reported, its day locked, then confirmed |
| `Books.JoinedAgreeIff` | src/corrections/correction-rules.ts:131-138 | two pairs of texts joined by a bar agree if and only if they are equal or one runs over its bar into the other |
| `Books.ChangedRequestIsReplayedIff` | src/corrections/corrections.service.ts:80-98 | a request id used again is replayed, rather than refused, if and only if the payment is the same and the joined texts agree |
| `Books.BarredTextsCollide` | src/corrections/correction-rules.ts:131-138 | two different pairs that agree |
| `Books.BarredExpensesCollide` | src/expenses/expense-rules.ts:144-166 | expenses collide the same way |
| `Books.RequestedIff` | src/corrections/corrections.service.ts:68-139 | a correction is asked for if and only if with a reason, under a new id, of a confirmed payment nothing stands against; it copies it |
| `Books.ApprovedIff` | src/corrections/corrections.service.ts:173-216 | it is approved if and only if open, as it was read, on a day not locked, and dated that day |
| `Books.RejectedIff` | src/corrections/corrections.service.ts:263-298 | it is rejected if and only if open and as it was read, and moves no money |
| `Books.RequestSentAgain` | src/corrections/corrections.service.ts:86-98 | the same request sent again is answered and changes nothing |
| `Books.ExpenseReportedIff` | src/expenses/expenses.service.ts:78-189 | an expense is reported if and only if it can be booked and its request id is new |
| `Books.ExpenseSentAgain` | src/expenses/expenses.service.ts:105-118 | sent again it is answered, another under its id only if the payloads read the same |
| `Books.ExpenseConfirmedIff` | src/expenses/expenses.service.ts:191-245 | it is confirmed if and only if open and as it was read, a variable one on a day not locked |
| `Books.ExpenseDeclinedIff` | src/expenses/expenses.service.ts:251-295 | it is declined if and only if open and as it was read |
| `Books.ExpensesAreWellFormed` | src/expenses/expense-rules.ts:44-80 | in every run each expense has an amount, and a due date if and only if it is fixed |
| `Books.BooksService.Request` | src/corrections/corrections.service.ts:68-139 | request is its step: replays, refusals and the copied amount |
| `Books.BooksService.Approve` | src/corrections/corrections.service.ts:173-216 | approve is its guarded step |
| `Books.BooksService.Reject` | src/corrections/corrections.service.ts:263-298 | reject is its guarded step |
| `Books.BooksService.Report` | src/expenses/expenses.service.ts:78-189 | creating an expense is its step: refusals, replays, changed replays and a retired account |
| `Books.BooksService.FindReplay` | src/expenses/expenses.service.ts:105-118 | finds an earlier report under the request id and whether its payload was the same |
| `Books.BooksService.Confirm` | src/expenses/expenses.service.ts:191-245 | confirming an expense is its guarded step |
| `Books.BooksService.Decline` | src/expenses/expenses.service.ts:251-295 | rejecting an expense is its guarded step |
| `Csv.ParseCsv` | src/imports/csv.ts:48-120 | the while loop computes the specified rows, with the detected delimiter unless one is forced |
| `Csv.DetectDelimiter` | src/imports/csv.ts:33-46 | the counting loop picks the specified delimiter |
| `Csv.RoundTrip` | src/imports/csv.ts:48-120 | any table of non-empty rows written per section 2 of RFC 4180, with any delimiter and line ending, reads back as its rows that are not blank |
| `Csv.LooseTextIsRead` | src/imports/csv.ts:86-108 | once a cell has begun unquoted, every character up to its end is itself, quotes included |
| `Csv.TextAfterQuotesJoins` | src/imports/csv.ts:66-108 | text after closed quotes belongs to the same cell |
| `Csv.OpenQuotesSwallow` | src/imports/csv.ts:66-84 | quotes never closed take the rest of the file into one cell |
| `Csv.KeptIs` | src/imports/csv.ts:110-119 | a row is kept if and only if something in it is not white space |
| `Csv.DetectionRecoversDelimiter` | src/imports/csv.ts:33-46 | with a one-line header, quoted or not, the delimiter is recovered if and only if its separators prevail, ties decided as the code does, over the delimiters left unquoted in the header |
| `Csv.QuotedHeaderPrevails` | src/imports/csv.ts:33-46 | a fully quoted header prevails if and only if it has two cells or the delimiter is the comma |
| `Csv.LoneHeaderLosesItsDelimiter` | src/imports/csv.ts:33-46 | a single quoted header written with a semicolon is not detected so |
| `Csv.StrayDelimiterWins` | src/imports/csv.ts:33-46 | a plain header `a;b` in a comma file is detected as a semicolon file |
| `Csv.RoundTripUnconfigured` | src/imports/csv.ts:33-120 | so such a file reads back with no delimiter given |
| `ImportRows.GuessMapping` | src/imports/column-mapping.ts:95-112 | every column takes the first listed field its header names that no earlier column has |
| `ImportRows.EachFieldOnce` | src/imports/column-mapping.ts:95-112 | no two columns fill one field |
| `ImportRows.FirstColumnWins` | src/imports/column-mapping.ts:88-112 | when headers are unambiguous a column has a field if and only if it is the first to name it |
| `ImportRows.ValidateRow` | src/imports/row-validation.ts:112-212 | the running status and messages end as the specified verdict |
| `ImportRows.RowIsImportedIff` | src/imports/row-validation.ts:112-212 | a row is imported if and only if it is complete and its identifier unclaimed, with a warning if and only if it is free stock or priced below cost |
| `ImportRows.CompleteIff` | src/imports/row-validation.ts:112-212 | a row is complete if and only if with a model, an identifier of its kind, and a cost and price not negative |
| `ImportRows.ImeiComplaints` | src/imports/row-validation.ts:141-157 | each complaint about an IMEI and when it is made |
| `ImportRows.OtherComplaints` | src/imports/row-validation.ts:158-209 | the same for serial numbers, duplicates and money |
| `ImportRows.StoredRow` | src/imports/row-validation.ts:127-209 | what is stored of a complete row is what its cells say |
| `ImportRows.KindIs` | src/imports/column-mapping.ts:124-168 | the kind of a sheet, and what is missing from one |
| `ImportRows.RowsAreNumbered` | src/imports/imports.service.ts:396-404 | rows are numbered as the spreadsheet numbers them |
| `Strings.TrimIs` | src/imports/row-validation.ts:125-130 | trimming takes white space off both ends, all of it, and nothing else |
| `ImportRows.DecideRows` | src/imports/imports.service.ts:346-406 | the loop over the sheet gives the verdict list |
| `ImportRows.LookupFinds` | src/imports/imports.service.ts:353-380 | an identifier without dashes or spaces is looked up in the shop exactly |
| `ImportRows.LookupFindsIff` | src/imports/imports.service.ts:353-380 | an identifier is found in the shop if and only if it is held and has no dash or inner space, or its unit is met through another claimed identifier |
| `ImportRows.RowIsNewIff` | src/imports/imports.service.ts:346-406 | a row of any sheet is imported if and only if it is complete, not found in the shop and in no earlier row |
| `ImportRows.HeldSerialPassesPreviewIff` | src/imports/imports.service.ts:353-380 | a serial number the shop holds passes the preview if and only if the lookup misses it for its dashes or spaces and it is the first in the file |
| `ImportRows.ImeiRowIsFresh` | src/imports/imports.service.ts:346-406 | an IMEI row is imported if and only if it is complete, fifteen check-digit-valid digits, and neither in the shop nor in any earlier row |
| `ImportRows.DashedSerialIsMissed` | src/imports/imports.service.ts:355-358 | a dashed serial number already in the shop passes the preview |
| `Imports.FindProduct` | src/imports/imports.service.ts:426-430 | finds a product with the key, or there is none |
| `Imports.KeyOfStored` | src/imports/imports.service.ts:416-430 | a product is known by its trimmed brand, or as unbranded, its model and its variant |
| `Imports.NewProductsAreOfTheKind` | src/imports/imports.service.ts:432-444 | a product that was not there is made of the sheet's kind, the others stay |
| `Imports.NewUnitsAreTheRows` | src/imports/imports.service.ts:286-304 | the k-th new unit is row k: its product, its cost, its branch, its identifier, and nothing else of the shop moves |
| `Imports.CommitAddsExactly` | src/imports/imports.service.ts:251-285 | a commit raises the branch's stock of any set of products by exactly what its rows bring, moves no other branch, keeps costs, one stock row per product and one product per key |
| `Imports.ReceiveValue` | src/imports/imports.service.ts:258-280 | merged pieces come in at the cost of the row they join |
| `Imports.ImportAddsWhatWasPaidIff` | src/imports/imports.service.ts:258-280 | an imported row raises the value of the stock by what was paid if and only if the product is new to the branch or held at the same cost |
| `Imports.ImportUndervaluesCables` | src/imports/imports.service.ts:258-280 | twenty cables held at 1 and fifty imported at 2 are worth 70 |
| `Imports.CommitValue` | src/imports/imports.service.ts:249-285 | a committed sheet raises the value of the stock by each quantity at the cost of the row it joined |
| `Imports.SecondCostIsLost` | src/imports/imports.service.ts:258-280 | a product listed twice at two costs is kept at the first |
| `Imports.FitsIff` | prisma/migrations/0008_units_generalize/migration.sql:15-20 | the database accepts a sheet of distinct identifiers if and only if none is taken, in this company or another |
| `Imports.ImeiAcceptsIff` | prisma/migrations/0042_identifier_cross_uniqueness/migration.sql:51-84 | the unique index and the insert trigger accept an IMEI if and only if it stands on no unit in any column |
| `Imports.CommitGoesThroughIff` | src/imports/imports.service.ts:236-310 | a commit not refused for its batch goes through if and only if no row clashes, and otherwise changes nothing |
| `Imports.UploadedIff` | src/imports/imports.service.ts:48-137 | a sheet is previewed once per request id if it has rows, and read if and only if it has the columns it needs |
| `Imports.UploadSentAgain` | src/imports/imports.service.ts:53-59 | the same upload sent again is answered with the batch it made |
| `Imports.CommittedIff` | src/imports/imports.service.ts:208-335 | a batch is brought in if and only if from its branch, as it was read, while a preview, with a row to bring and none that clashes |
| `Imports.DoneCommitKeepsUnique` | src/imports/imports.service.ts:286-304 | an IMEI commit that goes through keeps identifiers unique, whatever happened since the preview |
| `ImportExamples.DashedDuplicateBlocksItsSheet` | src/imports/imports.service.ts:208-335 | a dashed serial number held under the index passes the preview and blocks the good row beside it |
| `ImportExamples.DashedDuplicateIsDoubled` | src/imports/imports.service.ts:208-335 | held beside an IMEI, so outside the index, it is brought in a second time |
| `Imports.CommitKeepsUniqueIff` | src/imports/imports.service.ts:286-304 | bringing distinct IMEIs in keeps identifiers unique if and only if the shop holds none of them by then |
| `Imports.ImportKeepsIdentifiersUnique` | src/imports/imports.service.ts:208-335 | from sheet to shop: identifiers stay unique as long as the shop gained none since the preview |
| `Imports.PreviewIsOk` | src/imports/imports.service.ts:98-136 | a preview's counts add up; its importable rows carry distinct identifiers, checked where they are IMEIs, or positive whole quantities |
| `Imports.WinnerIsWholeCommit` | src/imports/imports.service.ts:236-247 | a commit that wins its guard is a whole commit made at that instant |
| `Imports.CommittedAtMostOnce` | src/imports/imports.service.ts:236-247 | under any interleaving a batch is brought in at most once |
| `Imports.StockIsWhatSheetsBrought` | src/imports/imports.service.ts:208-335 | over every run stock has risen by exactly what the committed sheets hold, each once |
| `Imports.ImportedIsValidPlusWarning` | src/imports/row-validation.ts:215-224 | in every run a committed batch imported its valid and its warned rows |
| `Imports.ImportsService.Upload` | src/imports/imports.service.ts:48-137 | preview is its step, the replay of an upload included |
| `Imports.ImportsService.FindOrCreateProduct` | src/imports/imports.service.ts:416-444 | reuses the product with the key or adds one |
| `Imports.ImportsService.BringInAll` | src/imports/imports.service.ts:249-308 | the commit loop adds every importable row, in order, up to the first the database refuses |
| `Imports.ImportsService.Commit` | src/imports/imports.service.ts:208-335 | commit is its step: refusals, and all of the sheet or none of it |
| `Luhn.LuhnValid` | src/inventory/imei.util.ts:4-18 | true exactly for digit strings whose weighted sum is a multiple of ten |
| `Luhn.IsValidImei` | src/inventory/imei.util.ts:21-23 | true exactly for fifteen such digits |
| `Luhn.LuhnValid15` | src/imports/row-validation.ts:40-52 | the same as IsValidImei: the two implementations agree |
| `Luhn.FifteenDigitsAreWeighted` | src/imports/row-validation.ts:40-52 | which digits count double, digit by digit |
| `Luhn.KnownImei` | src/inventory/imei.util.ts:4-18 | a known good number passes, and fails with its last digit one higher |
| `Luhn.LuhnCheckDigit` | scripts/staging-scan-sheet.ts:97-108 | gives the one character that completes fourteen digits |
| `Luhn.BrokenCheckDigitShows` | scripts/staging-scan-sheet.ts:83-88 | the near-miss fixture is never valid |
| `Luhn.OneWrongDigitShows` | src/inventory/imei.util.ts:4-18 | changing one digit of a valid number of any length invalidates it |
| `Luhn.SwappedNeighboursShow` | src/inventory/imei.util.ts:4-18 | swapping neighbours keeps a number valid if and only if they are equal or 0 and 9 |
| `Billing.PlanAtSpec` | src/billing/billing.service.ts:101-128 | the current plan is the latest to have taken effect, else the earliest; the upcoming one the earliest still to come |
| `Billing.SchedulingKeepsThePastIff` | src/billing/billing.service.ts:296-335 | scheduling touches no period, and keeps the plan of every moment up to now if and only if some plan takes effect no later than the new one |
| `Billing.SchedulesRewriteThePast` | src/billing/billing.service.ts:296-335 | schedules for moments 10 and then 5 on an empty table change what moment 0 is told |
| `Billing.SchedulingIsNeverRetroactive` | src/billing/billing.service.ts:296-335 | so a moment up to now with a plan in force keeps it |
| `Billing.BranchesCostTheirPrice` | src/billing/pricing-rules.ts:86-108 | no branch costs nothing and each adds its monthly price |
| `Billing.BranchesPoolTheirAllowance` | src/billing/pricing-rules.ts:90-91 | each branch adds its included accounts to one pool |
| `Billing.StaffBeyondThePoolCost` | src/billing/pricing-rules.ts:90-95 | staff within the pool cost nothing and each one beyond it the extra price |
| `Billing.CountsBelowZero` | src/billing/pricing-rules.ts:75-77 | a count below zero is taken for zero |
| `Billing.OpenedPeriod` | src/billing/billing.service.ts:260-287 | a period opens at the prices in force for the size of the company, and touches no other |
| `Billing.AssessedPeriodOnly` | src/billing/billing.service.ts:217-251 | an assessment touches at most the period of the company that started last |
| `Billing.ScheduledIff` | src/billing/billing.service.ts:296-350 | a price is scheduled if and only if for the future, with a reason and no negative figure, as the next version |
| `Billing.AssessedFees` | src/billing/pricing-rules.ts:156-184 | skipping the write when nothing was added loses nothing: the fees are the component-wise maxima either way |
| `Billing.FeesAreHighWaterMarks` | src/billing/billing.service.ts:217-350 | after any run every period's branch and staff fee are each the greatest quoted, at its frozen prices, over every size it met |
| `Billing.OrderAndRepetitionDoNotMatter` | src/billing/pricing-rules.ts:110-136 | only the set of sizes met matters |
| `Billing.PeriodsOnlyGrow` | src/billing/billing.service.ts:210-294 | whatever follows, a period keeps its prices and its fees never fall |
| `Billing.BillingService.OpenPeriod` | src/billing/billing.service.ts:260-287 | openPeriod is its step, freezing the plan's prices |
| `Billing.BillingService.AssessNow` | src/billing/billing.service.ts:217-251 | assessNow is its step |
| `Billing.BillingService.SchedulePlanVersion` | src/billing/billing.service.ts:296-350 | schedulePlanVersion is its step, refusals included |
| `StockCost.AveragedWorth` | src/inventory/stock-cost.ts:93-105 | the update adds what was received and what was paid, and leaves price and reservations |
| `StockCost.ValueIsConserved` | src/inventory/stock-cost.ts:83-105 | over any receipts, quantity and quantity times cost rise by exactly what arrived and what was paid; an existing price never changes |
| `StockCost.OrderDoesNotMatter` | src/inventory/stock-cost.ts:83-105 | every ordering of the receipts ends in the same quantity and cost |
| `StockCost.CostIsBetween` | src/inventory/stock-cost.ts:83-105 | the cost stays between the least and greatest unit cost that went into it |
| `StockCost.ReceivedIff` | src/inventory/stock-cost.ts:87-89 | goods are received if and only if in a positive whole number; a new row takes the price given |
| `StockCost.StockItems.ReceiveQuantityAtCost` | src/inventory/stock-cost.ts:83-105 | the statement, cost before quantity, is its step; a quantity that is not a positive whole number is refused |

## Left out

- Notes, timestamps, acting users, disposition labels, audit rows, notifications and read endpoints: no rule reads them.
- SHA-256 itself is taken as injective on the text it is given; a fresh identifier is the next position in its table.
- Upper case at the hand-over scan is modelled for the letters a to z; trimming of reasons, notes and categories and the
  text encoding of channel keys: values are taken as already normalised.
- Label comparison is an arbitrary total preorder; header folding with its synonym lists and number reading are given
  functions; XLSX files are not modelled.
- Consignment payment, confirmation and write-off, correction requests, standalone debt entries, and counting against
  closing read and write with no guard, so each is one atomic step here.
- The tenant filter, roles and permissions, and database constraints other than those named: one company's view of its
  own tables, except for the two companies of a consignment.
- The receiving account named on a consignment payment is kept as given, not looked up.
- Refund payouts, supplier settlements and sales appear only as payments and their confirmations; transfers not at all.
- Loans, the device catalogue, variant parsing, messaging, sessions, dashboards and health scores: I/O, data or easy
  arithmetic.
- The rollup's velocity, valuation and profit columns: sums no modelled rule reads.
- `countingComplete` and `openView` are modelled inside recordCount and closing, not as reads of their own.
- Two rows taking effect, or two periods starting, at the same instant are ordered by insertion; the database leaves
  that open.
- Import rows are brought in in file order and their link to what they created is not kept; a refused insert is one
  refusal here, whether the index or the trigger raised it, and letter case in the index is not modelled.
- Rounding of the averaged cost to the column's two decimals, and of imported costs.
- Counts and prices in billing are whole numbers already; the truncation of fractions is not modelled.
