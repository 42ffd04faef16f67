# BizSaathi: payroll, invoices, realtime hub and Redis-backed state, in Dafny

BizSaathi runs the back office of small Indian firms. This project models the parts of it
that calculate or keep state, and proves what they promise:

- **Payroll** (`Rounding`, `Slabs`, `PayrollCalculator`, `TakeHomePay`, `Calendar`, `Attendance`,
  `Leave`, `PayrollLedger`). The income-tax slab loop, the two implementations of a payslip (API and
  worker), the working-day loop, attendance and leave, and the payroll table over whole runs.
- **Amounts in words** (`Tokens`, `AmountToWords`, `WordSpacing`). The printer in Indian numbering, and a reader
  that undoes it.
- **Invoices** (`Gst`, `InvoiceLedger`, `SweepLog`, `OverdueSweep`, `Digits`, `InvoiceNumber`). GST per line with
  banker's rounding, invoice totals, the monthly summary by rate, the
  DRAFT/SENT/PARTIAL/PAID/OVERDUE/CANCELLED machine with payments, the worker's overdue sweep under
  its retry loop with other requests in between, and invoice numbers.
- **Realtime hub** (`HubProtocol`, `HubDelivery`, `HubService`). Every interleaving of clients, their pumps,
  publishers and the hub's loop over three queues; and the hub as objects that change in place.
- **Redis** (`CustomerCache`, `CustomerList`, `RateLimit`, `RateHistory`). The cached customer list, and the WhatsApp limits whose
  keys the API and the worker share.

Where the source updates fields, arrays or tables in place, a class has methods with loops, each
proved against a function of the old state (`After`, `Answer`, `Printed`, `TotalsOf`, ...), and the
promises are lemmas about that function: over one step, and over every run. `dafny verify
dfyconfig.toml` checks all of it.

## How to read the model

- Money is counted in paise. Amounts that the code rounds are integers; amounts before rounding
  are reals. decimal.js values and JavaScript numbers are exact rationals.
- `Decimal.toDecimalPlaces(2)` without a mode and `toFixed(2)` round halves away from zero (`HalfUp`);
  GST rounds halves to even (`HalfEven`). `Decimal(10, 2)` columns keep whole paise, halves away from
  zero.
- Dates are day numbers counted from a Sunday, a month is its first and last date, times are
  numbers of seconds or milliseconds.
- The lemmas `...InFigures` and `...Exactly` say what a step does and when it is accepted in terms of the
  fields themselves; the functions `After`, `Answer` and the like are named in them only as what is
  described.
- A database table is a map from ids below `nextId`, a Redis instance is a map from keys, and an
  HTTP handler, a job row or a step of a goroutine is one atomic step. New ids are fresh.
- Sends to outside services are steps that succeed or fail, or fail after the service took the message.

Some findings are lemmas about what the code does *not* do:

- The API's net pay never falls with more bonus, days or overtime if and only if the ESIC ceiling is
  below Rs 1,00,003.34 (`TakeHomePay.NetNeverFallsExactly`). The default of Rs 21,000, which the worker
  has built in, is far below it; the worker's net pay never falls (`WorkerNetMonotone`).
- The API's monthly TDS is one paisa above the worker's exactly when the twelfth of the unrounded annual
  tax falls just below half a paisa (`PayrollCalculator.ImplementationsAgree`); the smallest such gross
  pay is Rs 83,333.52 (`FirstExtraPaisa`).
- Editing a draft payroll without changing anything, with the salary and settings it was processed
  with, drops its half day and, if the worker made the draft, can take the extra paisa. Where some
  salary component is at least two paise a working day, the record stays as it is if and only if
  there is no half day and no such paisa (`PayrollLedger.HalfDayIsDroppedExactly`; `EditKeepsExactly`
  for any salary). `HalfDayLost` is a member whose net pay falls from Rs 500 to nothing, `PaisaLost` a
  worker's draft without a half day that loses a paisa.
- The words of an amount read back as its nearest paisa if and only if it is at least zero and below
  2000 crore rupees (`AmountToWords.WordsReadBack`). From 2000 crore on the word tables are read past
  their end: the words contain `undefined` and amounts a hundred crore apart print alike. Of a
  negative amount, as net pay can be, only the paise above the next lower rupee are printed.
- A payment that leaves half a paisa or less unpaid is stored as payment in full, but the invoice
  never becomes PAID: it stays PARTIAL, or OVERDUE once the sweep moves it
  (`InvoiceLedger.StepPaidInFull`, `MissedForEver`, `NearMissExists`).
- A sweep job moves an invoice twice only if a payment on it was accepted in between
  (`SweepLog.MovedTwice`), and reminds of it at most once more often than payments on it are accepted
  meanwhile (`RemindersBounded`). Any payment that leaves something to pay makes it due again
  (`RevivedByPayment`); `MovedTwiceExists` is such a job. Two sweeps at the same time may both move an
  invoice that nobody pays (`SweptByBoth`).
- The sweep's update does not look at the status again: it makes a PAID invoice overdue if and only if
  the settling payment came between its query and that update (`SweepLog.OverwritesPaidExactly`,
  `PaidIsOverwritten`). The invoice then stays overdue, paid in full, and refuses every payment
  (`OverwrittenForEver`).
- A payment brings a cancelled invoice back (`InvoiceLedger.CancelledIsRevived`), although a comment in
  `addPayment` says that this never happens.
- The hub may serve a client's unregister before its register; the closed client then stays in its
  room (`HubProtocol.UnregisterCanOvertake`, `DrainedHoldsTheOvertaken`), and with another client in
  the room the connection counter drifts to 0 (`CounterCanDrift`, `CounterAccounting`).
- The worker counts WhatsApp messages under the phone as entered, the API under the formatted one:
  with nothing counted before, a worker's reminder holds back the API's if and only if the two are the
  same (`RateLimit.JobHoldsBackExactly`), which ten digits never are (`TenDigitsAreNotHeldBack`).
- A bulk run of less than a day notes at most one reminder to each phone as sent, a longer one may
  note more (`RateLimit.AtMostOneSent`, `TwoSent`). A second one reaches the phone within the day only
  if recording the first has failed after the provider took it (`ReachedTwice`); then nothing was
  counted, and the next one does reach it (`ReachesAgainExactly`, `UnrecordedReachedTwice`).
- A GST rate of 0 is taken as 18 (`Gst.ZeroIsEighteen`), so the lemmas about rates speak of the rate
  that is applied.

## Model

| member | source | states |
|---|---|---|
| Rounding.HalfEvenNearest | backend/src/invoice/gst.service.ts:25 | banker's rounding is exactly the nearest whole paisa, the even one of two equally near |
| Rounding.HalfEvenMonotone | backend/src/invoice/gst.service.ts:25 | rounding keeps order |
| Rounding.HalfUpNearest | backend/src/payroll/payroll-calculator.service.ts:91 | the other rounding is exactly the nearest whole paisa, the one away from zero of two equally near |
| Slabs.SlabTax | backend/src/payroll/payroll-calculator.service.ts:168-190 | the slab loop's tax before rounding is the maximum of six affine functions of income; the slab portions and the rest add up to the income |
| Slabs.SlabSumIsMaximum | backend/src/payroll/payroll-calculator.service.ts:172-190 | the sum over the slabs is the closed progressive form, for every income |
| Slabs.MarginalRate | backend/src/payroll/payroll-calculator.service.ts:168-193 | tax never falls with income, and of more income at most 30% is taxed away |
| Slabs.Convex | backend/src/payroll/payroll-calculator.service.ts:168-193 | tax is a convex function of income |
| Slabs.AverageRateNeverFalls | backend/src/payroll/payroll-calculator.service.ts:168-193 | the average rate of tax never falls with income |
| PayrollCalculator.Calculate | backend/src/payroll/payroll-calculator.service.ts:69-162 | the API's payslip, step by step, is the function the lemmas below speak of |
| PayrollCalculator.CalculateTds | backend/src/payroll/payroll-calculator.service.ts:168-193 | the annual tax is the closed form rounded to the paisa |
| PayrollCalculator.CalculatePayroll | backend/worker-service/src/processors/payroll.processor.ts:8-114 | the worker's payslip is the same payslip under default settings, but with the twelfth of the unrounded tax |
| PayrollCalculator.OvertimeInFigures | backend/src/payroll/payroll-calculator.service.ts:93-101 | overtime pay is basic salary times hours times the multiplier, out of 26 days of the working hours, to the paisa |
| PayrollCalculator.WorkerOvertimeInFigures | backend/worker-service/src/processors/payroll.processor.ts:43-46 | the worker pays it double, out of 208 hours |
| PayrollCalculator.OvertimeOfAMonth | backend/src/payroll/payroll-calculator.service.ts:93-101 | by default 208 hours of overtime pay twice the basic salary, in both implementations |
| PayrollCalculator.ComponentsInFigures | backend/src/payroll/payroll-calculator.service.ts:80-91 | each component is paid for the days present or on leave out of the working days, to the paisa |
| PayrollCalculator.FullMonth | backend/src/payroll/payroll-calculator.service.ts:84-91 | the full salary for a full month, nothing for a month without working days |
| PayrollCalculator.PayslipsInFigures | backend/src/payroll/payroll-calculator.service.ts:69-142 | in both implementations: payable and absent days, gross pay with the bonus, 12% and 13% PF up to its ceiling, 0.75% and 3.25% ESIC within its ceiling, TDS as a twelfth of the yearly tax, the sum of the deductions and net pay |
| PayrollCalculator.ImplementationsAgree | backend/worker-service/src/processors/payroll.processor.ts:36-96 | under default settings the two payslips agree in every figure, except that the API's TDS is one paisa more in exactly the stated cases, and net pay by that paisa |
| PayrollCalculator.FirstExtraPaisa | backend/src/payroll/payroll-calculator.service.ts:127-133 | no gross pay below Rs 83,333.52 shows that paisa, and that one does |
| TakeHomePay.NetMonotone | backend/src/payroll/payroll-calculator.service.ts:84-142 | for every ESIC ceiling below Rs 1,00,003.34, more bonus, days or overtime never lower net pay |
| TakeHomePay.NetNeverFallsExactly | backend/src/payroll/payroll-calculator.service.ts:84-142 | and for no other ceiling: the condition is exact |
| TakeHomePay.NeverTogetherBelowFirstDrop | backend/src/payroll/payroll-calculator.service.ts:119-133 | below that gross pay one more paisa never raises both the ESIC share and the TDS |
| TakeHomePay.DropAt | backend/src/payroll/payroll-calculator.service.ts:119-142 | at that gross pay one more paisa of bonus lowers net pay, for every ceiling from there on |
| TakeHomePay.WorkerNetMonotone | backend/worker-service/src/processors/payroll.processor.ts:28-96 | nor do they lower the worker's net pay, whose ceiling is fixed |
| Calendar.CountDaysExcludingSundays | backend/src/leave/leave.service.ts:30-38 | the date loop counts the dates that are not Sundays, and the count is a closed form |
| Calendar.WorkingDaysCountWorkingDates | backend/src/payroll/payroll.service.ts:56-62 | the closed form by floor division is the number of such dates |
| Calendar.WorkingDaysAdditive | backend/src/leave/leave.service.ts:30-38 | counting a range in two parts counts every working day once |
| Attendance.PayableBalance | backend/src/payroll/payroll.service.ts:84-87 | payable half days are those of the working days, less what was missed, plus what Sundays earned |
| Attendance.PayableWithinWorkingDaysExactly | backend/src/payroll/payroll.service.ts:84-87 | payable days stay within the working days exactly when Sundays earn no more than working days miss |
| Leave.LeaveService.Apply | backend/src/leave/leave.service.ts:40-86 | refuses unknown staff, empty ranges and ranges with a PRESENT entry; else records the days of the range |
| Leave.LeaveService.Approve | backend/src/leave/leave.service.ts:118-168 | a pending request becomes approved, and its working dates are upserted |
| Leave.LeaveService.Reject | backend/src/leave/leave.service.ts:170-192 | a pending request becomes rejected; the register stays |
| Leave.LeaveService.Mark | backend/src/attendance/attendance.service.ts:19-88 | one entry per staff member and date, no future date |
| Leave.AppliedExactly | backend/src/leave/leave.service.ts:40-68 | which application is refused, and why: a stranger, an empty range, a day in it marked PRESENT |
| Leave.AppliedAsAsked | backend/src/leave/leave.service.ts:70-86 | an application becomes a pending request as it was asked for |
| Leave.DecidedExactly | backend/src/leave/leave.service.ts:119-125 | only a pending request of the tenant is decided |
| Leave.StatusIsDecision | backend/src/leave/leave.service.ts:118-192 | in every run a request is approved or rejected, by whom, exactly as it was decided since it was asked for, and else still pending |
| Leave.MarkedExactly | backend/src/attendance/attendance.service.ts:19-34 | a mark is refused for dates to come and for strangers |
| Leave.LastWriteStays | backend/src/leave/leave.service.ts:138-164 | in every run an entry of the register is what the last mark or approval wrote there |
| Leave.NeverWritten | backend/src/attendance/attendance.service.ts:58-88 | and without one there is none |
| Leave.WithLeaveWrites | backend/src/leave/leave.service.ts:138-164 | the upsert loop writes the working dates of the range as ON_LEAVE and nothing else |
| Leave.ApprovalWritesItsDays | backend/src/leave/leave.service.ts:118-168 | an approval writes exactly `days` entries, all ON_LEAVE, and changes no other |
| Leave.DaysStayRight | backend/src/leave/leave.service.ts:70-83 | in every run each request counts the working dates of its range |
| Leave.DecidedAtMostOnce | backend/src/leave/leave.service.ts:119-125 | in every run a request is approved or rejected at most once |
| Leave.PayableWithinWorkingDays | backend/src/leave/leave.service.ts:138-164 | while no Sunday is marked as worked, no run pays anyone for more days than a range has working days |
| PayrollLedger.PayrollService.Process | backend/src/payroll/payroll.service.ts:31-148 | processes a month for the API or the worker, skipping members who have a record; the count is the number created |
| PayrollLedger.PayrollService.UpdateOne | backend/src/payroll/payroll.service.ts:245-288 | recomputes a draft from its stored days; the component fields stay |
| PayrollLedger.PayrollService.PayAll | backend/src/payroll/payroll.service.ts:290-308 | pays exactly the tenant's drafts of the month |
| PayrollLedger.PayrollService.PaySingle | backend/src/payroll/payroll.service.ts:341-357 | pays one record that is not paid yet |
| PayrollLedger.AcceptedExactly | backend/src/payroll/payroll.service.ts:245-306 | what is accepted: edits and payments of the tenant's own drafts, a month with drafts, a list that is not empty |
| PayrollLedger.OvertimeAdds | backend/src/payroll/payroll.service.ts:89-92 | the overtime of a range is that of its parts |
| PayrollLedger.OvertimeOfDate | backend/src/payroll/payroll.service.ts:89-92 | and of one date that of the register |
| PayrollLedger.InputInFigures | backend/src/payroll/payroll.service.ts:76-124 | a payslip is made from the working dates, the dates present, half present and on leave, and the overtime of the month |
| PayrollLedger.RecordInFigures | backend/src/payroll/payroll.service.ts:126-148 | a new record keeps the figures of that payslip and rounds the present days down |
| PayrollLedger.EveryoneHasOne | backend/src/payroll/payroll.service.ts:66-148 | after a month is processed every listed member has a record of its own for it |
| PayrollLedger.OneRecordEach | backend/src/payroll/payroll.service.ts:67-74 | in every run there is at most one record of a tenant's member for a month |
| PayrollLedger.EditInFigures | backend/src/payroll/payroll.service.ts:257-287 | an edit recalculates from the stored days and the present salary, with the given bonus and deductions or else the stored ones, and changes nothing but five fields |
| PayrollLedger.PaidIfPaid | backend/src/payroll/payroll.service.ts:290-357 | in every run a record is PAID if and only if it was paid, by itself or with its tenant's month, since it was made |
| PayrollLedger.RunConsistent | backend/worker-service/src/processors/payroll.processor.ts:153-237 | in every run, from either service, one record per tenant, member and month, and net is gross less all deductions |
| PayrollLedger.PaidIsFinal | backend/src/payroll/payroll.service.ts:245-306 | a paid record never changes and is never paid again |
| PayrollLedger.ProcessedAdds | backend/src/payroll/payroll.service.ts:66-148 | processing adds drafts for the keys that had none, one for each listed member of that tenant and month and for nobody else, and touches no existing record |
| PayrollLedger.SecondRunIsIdentity | backend/worker-service/src/processors/payroll.processor.ts:153-162 | processing the same members again, by either service, changes nothing |
| PayrollLedger.EditWithoutChange | backend/src/payroll/payroll.service.ts:257-287 | for a new draft of either service, an edit that changes nothing never raises net pay, for every ESIC ceiling below the first drop; without a half day it changes nothing, or takes exactly the paisa that the API's TDS is above the worker's |
| PayrollLedger.EditKeepsExactly | backend/src/payroll/payroll.service.ts:257-287 | for a new draft of either service, it leaves the record as it is if and only if rounding the present days down changes no prorated component and there is no such paisa |
| PayrollLedger.HalfDayIsDroppedExactly | backend/src/payroll/payroll.service.ts:257-287 | with a component of at least two paise a working day: if and only if there is no half day and no such paisa |
| PayrollLedger.HalfDayLost | backend/src/payroll/payroll.service.ts:257-287 | a member with one half day is paid Rs 500 by either service, and nothing after such an edit |
| PayrollLedger.PaisaLost | backend/src/payroll/payroll.service.ts:257-287 | a worker's draft of Rs 83,333.52, fully present, loses a paisa by such an edit |
| PayrollLedger.ProratedAtMostFull | backend/src/payroll/payroll-calculator.service.ts:84-91 | unless a member's Sundays earn more than the working days miss, no prorated component exceeds its full amount |
| AmountToWords.Printer.ConvertBlock | backend/src/common/utils/amount-to-words.util.ts:12-26 | the destructive block printer prints the block as a function of the number |
| AmountToWords.Printer.ConvertAmount | backend/src/common/utils/amount-to-words.util.ts:28-44 | successive remainders spell crores, lakhs, thousands and the rest |
| AmountToWords.Printer.Print | backend/src/common/utils/amount-to-words.util.ts:1-56 | the whole printer, for every real amount |
| AmountToWords.ReadUndoesPrint | backend/src/common/utils/amount-to-words.util.ts:12-55 | a reader that accepts each word only in its place (crores to rupees in descending order, hundreds before tens before ones, the frame once) reads back rupees and paise exactly below 2000 crore rupees, and nothing from there on |
| AmountToWords.WordsReadBack | backend/src/common/utils/amount-to-words.util.ts:46-55 | the words of any amount, negative or not, read back as its nearest paise (also where 99.5 paise round up to 100) if and only if it is at least zero and below 2000 crore rupees; below zero only the paise are read |
| WordSpacing.PrintedSpacing | backend/src/common/utils/amount-to-words.util.ts:39-55 | the printed words have single spaces between them, none at the end, and none at the beginning if there are whole rupees |
| AmountToWords.AmountInTables | backend/src/common/utils/amount-to-words.util.ts:4-26 | every word-table index is in range exactly when the crore part is at most 1999 |
| AmountToWords.PrintsAlikeFrom2000Crore | backend/worker-service/src/utils/amount-to-words.ts:12-16 | from 2000 crore on, amounts a hundred crore apart print alike |
| Gst.SummarizeInvoice | backend/src/invoice/gst.service.ts:56-79 | the loop adds up the columns, and the final rounding changes nothing |
| Gst.TaxedOnce | backend/src/invoice/gst.service.ts:22-39 | a line is taxed across states by IGST alone, within the state by CGST and SGST in equal halves, each to the nearest paisa; the rate is stored to the nearest hundredth of a percent |
| Gst.AmountInFigures | backend/src/invoice/gst.service.ts:22-25 | the amount is quantity times rate less the discount in percent, rounded to the even paisa |
| Gst.TaxInFigures | backend/src/invoice/gst.service.ts:31-39 | the tax is the rate's percentage of the amount, or twice its half, each rounded to the even paisa |
| Gst.DiscountLowers | backend/src/invoice/gst.service.ts:22-25 | a larger discount never raises the amount, and 100% leaves no amount and no tax |
| Gst.ZeroIsEighteen | backend/src/invoice/invoice.service.ts:44-58 | a line at rate 0 is taxed and stored exactly as one at 18%, and six paise or more at rate 0 are taxed |
| Gst.LineTaxedEitherWay | backend/src/invoice/gst.service.ts:31-39 | on one line CGST+SGST and IGST differ by at most a paisa |
| Gst.TaxedEitherWay | backend/src/invoice/gst.service.ts:31-39 | on n lines by at most n paise |
| Gst.TotalNearExact | backend/src/invoice/gst.service.ts:22-42 | the total of n lines is within 2n paise of the unrounded value, for applied rates up to 100% |
| Gst.LineNotNegative | backend/src/invoice/gst.service.ts:22-42 | discounts up to 100% leave nothing negative |
| Gst.GetGstSummary | backend/src/invoice/invoice.service.ts:496-542 | the nested loops compute the totals, the tax and one bucket per stored rate in order of first occurrence |
| Gst.BucketIsTotal | backend/src/invoice/invoice.service.ts:512-530 | a bucket has the totals of the items of its rate |
| Gst.SummaryPartitions | backend/src/invoice/invoice.service.ts:503-530 | bucket rates are distinct, every item has a bucket, the buckets add up to the totals, and the total is taxable plus tax |
| InvoiceLedger.InvoiceService.Create | backend/src/invoice/invoice.service.ts:30-101 | refuses unknown customers; else a draft with its lines taxed and added up |
| InvoiceLedger.InvoiceService.Update | backend/src/invoice/invoice.service.ts:181-253 | edits drafts only; new lines are taxed and added up again |
| InvoiceLedger.InvoiceService.Send | backend/src/invoice/invoice.service.ts:255-267 | sends drafts only |
| InvoiceLedger.InvoiceService.AddPayment | backend/src/invoice/invoice.service.ts:295-339 | refuses paid invoices and overpayment; else records the payment and decides the status on the exact amount |
| InvoiceLedger.InvoiceService.Remove | backend/src/invoice/invoice.service.ts:406-414 | cancels drafts only |
| InvoiceLedger.AcceptedExactly | backend/src/invoice/invoice.service.ts:181-188 | tenants edit, send and cancel their own drafts only, and the sweep takes what is sent or partly paid and past due |
| InvoiceLedger.PaymentAccepted | backend/src/invoice/invoice.service.ts:295-306 | in every run a payment of a rupee or more on the tenant's own invoice is accepted if and only if it is not PAID and all its payments with this one are at most the total; else the answer says why |
| InvoiceLedger.BalanceSettles | backend/src/invoice/invoice.service.ts:295-339 | on every reachable invoice that is not PAID and owes a rupee or more, paying the balance is accepted and makes it PAID |
| InvoiceLedger.PaymentIsKept | backend/src/invoice/invoice.service.ts:314-339 | an accepted payment is recorded to the paisa and leaves the invoice PAID or PARTIAL |
| InvoiceLedger.StatusIsSet | backend/src/invoice/invoice.service.ts:255-267 | sending makes it SENT, cancelling CANCELLED, the sweep OVERDUE, and nothing else changes |
| InvoiceLedger.CreatedAsDraft | backend/src/invoice/invoice.service.ts:30-101 | a new invoice is a draft under a fresh id, its lines taxed one by one and added up |
| InvoiceLedger.EditedAsAsked | backend/src/invoice/invoice.service.ts:190-253 | an edit sets what it gives and keeps the rest |
| InvoiceLedger.RunKeepsBooks | backend/src/invoice/invoice.service.ts:304-339 | in every run the totals are the sums of the items, the paid amount is the sum of the payments and at most the total, nothing is paid on drafts, sent and cancelled invoices, something on partial ones, everything on paid ones |
| InvoiceLedger.PaymentsAtMostTotal | backend/src/invoice/dto/add-payment.dto.ts:6 | accepted payments number at most the total in rupees |
| InvoiceLedger.StepMoves | backend/src/invoice/invoice.service.ts:308-318 | the statuses move only along the listed arrows |
| InvoiceLedger.NoWayBack | backend/src/invoice/invoice.service.ts:184-186 | in every run of such steps DRAFT is never re-entered, items and totals are frozen after it, and PAID invoices stay as they are |
| InvoiceLedger.CancelledIsRevived | backend/src/invoice/invoice.service.ts:309-318 | a payment on a cancelled invoice is accepted exactly if it is within the total, and revives it |
| InvoiceLedger.StepPaidInFull | backend/src/invoice/invoice.service.ts:314-336 | a step keeps "PAID exactly when fully paid" if and only if it is no payment landing in the last half paisa |
| InvoiceLedger.RunPaidInFull | backend/src/invoice/invoice.service.ts:314-336 | so it holds over every run without such a payment |
| InvoiceLedger.WholePaiseNeverMiss | backend/src/invoice/invoice.service.ts:300-318 | payments in whole paise are never such payments |
| InvoiceLedger.MissedForEver | backend/src/invoice/invoice.service.ts:304-318 | after one, the invoice never becomes PAID and refuses every further payment |
| InvoiceLedger.NearMissExists | backend/src/invoice/invoice.service.ts:314-318 | a run from the empty ledger with one: an invoice of two rupees is created, sent, and paid 199.6 paise |
| InvoiceLedger.SummaryOfRun | backend/src/invoice/invoice.service.ts:487-530 | the invoices of any run satisfy what the monthly summary needs |
| OverdueSweep.Sweep.Turn | backend/worker-service/src/processors/invoice.processor.ts:31-65 | one row, where the update or either message may fail: the invoice is marked whatever its status is by then, or nothing happens, and at most its own messages are lost |
| OverdueSweep.Sweep.Attempt | backend/worker-service/src/processors/invoice.processor.ts:16-67 | one attempt, with other events of the ledger before any of its rows, moves only invoices that were due at its query, each once and all of them unless it fails, and at most one invoice misses messages |
| OverdueSweep.Sweep.WithRetry | backend/worker-service/src/utils/retry.ts:15-41 | over up to three attempts with other events between their rows and between them, the count is the number of moves; each move has its notification, and a reminder if there is a phone, save for at most one move per failed attempt; the others' events all happened, in order; on normal return every row of the last query was updated |
| SweepLog.LogKeepsBooks | backend/worker-service/src/processors/invoice.processor.ts:31-38 | whatever a job and others do, the books of every invoice stay balanced |
| SweepLog.MovedTwice | backend/worker-service/src/processors/invoice.processor.ts:18-38 | between two moves of one invoice a payment on it was accepted, unless another sweep made the first while the job had the row in hand |
| SweepLog.MovesBounded | backend/worker-service/src/processors/invoice.processor.ts:18-38 | a job moves an invoice at most once more often than payments on it are accepted meanwhile |
| SweepLog.RemindersBounded | backend/worker-service/src/processors/invoice.processor.ts:43-65 | so it reminds of it and notifies of it at most that often |
| SweepLog.RemindedOnce | backend/worker-service/src/processors/invoice.processor.ts:43-65 | and without others at most once |
| SweepLog.MovedTwiceExists | backend/worker-service/src/processors/invoice.processor.ts:18-38 | a job that moves an invoice twice, with a part payment in between |
| SweepLog.SweptByBoth | backend/worker-service/src/processors/invoice.processor.ts:18-38 | two sweeps at the same time that both move an invoice without a payment |
| SweepLog.RevivedByPayment | backend/src/invoice/invoice.service.ts:308-318 | a payment on an overdue invoice makes it due again exactly if it leaves something to pay and the due date is past |
| SweepLog.OverwritesPaidExactly | backend/worker-service/src/processors/invoice.processor.ts:31-38 | the job marks a PAID invoice overdue if and only if the settling payment came between its query and its update of the row |
| SweepLog.OverwrittenForEver | backend/worker-service/src/processors/invoice.processor.ts:31-38 | such an invoice stays overdue and paid in full, and every further payment is refused |
| SweepLog.PaidIsOverwritten | backend/worker-service/src/processors/invoice.processor.ts:31-38 | a job in which that happens |
| SweepLog.Undisturbed | backend/worker-service/src/utils/retry.ts:15-41 | without other events, when every row of the last query is updated, exactly the invoices due have been moved, each once, and nothing else changed |
| SweepLog.MovedBySteps | backend/worker-service/src/processors/invoice.processor.ts:33-38 | an undisturbed attempt does what the ledger's own sweep steps do, in any order of the rows |
| InvoiceNumber.InvoiceNumberService.GenerateNextInvoiceNumber | backend/src/invoice/invoice-number.service.ts:8-25 | the number and the counter as functions of the date and the counters |
| InvoiceNumber.FinancialYearsDiffer | backend/src/invoice/invoice-number.service.ts:9-17 | two dates print the same financial year exactly if they are in the same April to March |
| InvoiceNumber.PrintedInjective | backend/src/invoice/invoice-number.service.ts:22-24 | a printed number determines its year and its sequence, also past 9999 |
| InvoiceNumber.YearInFigures | backend/src/invoice/invoice-number.service.ts:9-17 | for years of four digits: the starting year, a dash, and the last two digits of the next |
| InvoiceNumber.NumberInFigures | backend/src/invoice/invoice-number.service.ts:22-24 | the sequence number comes last, in four digits or more |
| InvoiceNumber.Consecutive | backend/src/invoice/invoice-number.service.ts:19-24 | in every run the number that a request is given follows those of the earlier requests of its tenant and year |
| InvoiceNumber.NumbersDistinct | backend/src/invoice/invoice-number.service.ts:8-25 | and pairwise distinct over all years |
| HubProtocol.AlwaysInv | backend/realtime-service/hub/hub.go:92-130 | in every interleaving no room is empty, every client is under its own id in its own tenant's room, and queues and buffers keep their bounds |
| HubProtocol.ReachesTheAddressed | backend/realtime-service/hub/hub.go:136-151 | the walk over rooms reaches exactly the registered clients of the user, else of the tenant, else all |
| HubDelivery.DeliversExactly | backend/realtime-service/hub/hub.go:132-152 | in every run a handled message adds its event exactly to the registered clients with room whose user it is for, or without a user whose tenant, or without either to all |
| HubDelivery.TenantsAreApart | backend/realtime-service/hub/hub.go:140-145 | a message for a tenant adds nothing to a client of another tenant |
| HubDelivery.NothingLeaks | backend/realtime-service/hub/hub.go:132-152 | in every run, each event that a client got was published for its user, for its tenant, or for everyone |
| HubDelivery.HandledInOrder | backend/realtime-service/hub/hub.go:44-62 | in every run the messages handled and those waiting are the published ones that found room, in order |
| HubDelivery.ClientsInOrder | backend/realtime-service/hub/hub.go:44-62 | clients are registered in the order in which they connected, and unregistered in the order in which they closed |
| HubDelivery.DispatchedIsDelivered | backend/realtime-service/hub/room.go:63-76 | in every run the dispatched metric is the number of events that all clients got, lost in a failed write or have queued |
| HubDelivery.OwnFrames | backend/realtime-service/hub/client.go:98-135 | a greeting or pong joins a buffer with room, a pump writes or loses the oldest frame, and nobody else's connection changes |
| HubProtocol.GetsTheAcceptedInOrder | backend/realtime-service/hub/room.go:63-76 | the events written to a client, lost in its failed write or still queued are, in order, exactly those handled for it while it was registered and its buffer held fewer than 256 |
| HubProtocol.AcceptedIsSubsequence | backend/realtime-service/hub/room.go:63-76 | these are an in-order subsequence of the events addressed to it while it was registered |
| HubProtocol.ReceivedIsSubsequence | backend/realtime-service/hub/client.go:109-135 | so what a client received or has queued is one too |
| HubProtocol.DispatchedOrCounted | backend/realtime-service/hub/room.go:63-76 | dispatched plus send errors is the sum, over handled events, of the registered clients each was for |
| HubProtocol.CounterAccounting | backend/realtime-service/hub/hub.go:112-130 | the connection counter plus the miscounted unregisters is the number of clients in rooms |
| HubProtocol.DrainedHoldsTheOvertaken | backend/realtime-service/hub/hub.go:44-62 | a drained hub holds exactly the clients whose unregister overtook their register; without any, no rooms and count 0 |
| HubProtocol.UnregisterCanOvertake | backend/realtime-service/hub/hub.go:47-60 | such a run exists for every client |
| HubProtocol.CounterCanDrift | backend/realtime-service/hub/hub.go:112-123 | a run in which the counter is 0 while a client is in its room |
| HubProtocol.OtherStepAdds | backend/realtime-service/hub/client.go:100-103 | greetings, pongs and the pumps neither add nor lose nor reorder broadcast events |
| HubService.Peer.TrySend | backend/realtime-service/hub/room.go:65-68 | a send that never waits: appended unless the buffer holds 256 |
| HubService.SendAll | backend/realtime-service/hub/room.go:63-76 | the loop sends once to each picked client, in any order, and counts each send or drop |
| HubService.Hub.HandleRegister | backend/realtime-service/hub/hub.go:92-103 | the room gets the client, created if need be, and the counter goes up |
| HubService.Hub.HandleUnregister | backend/realtime-service/hub/hub.go:112-123 | the client goes, an empty room goes, and the counter goes down whenever there was a room |
| HubService.Hub.HandleBroadcast | backend/realtime-service/hub/hub.go:132-152 | each client the message is for is sent to once, no other; both metrics count them |
| HubService.Hub.GetStats | backend/realtime-service/hub/hub.go:154-173 | the numbers of rooms, of clients, and of clients in each room |
| HubService.MembersReceive | backend/realtime-service/hub/hub.go:136-151 | the objects in the rooms receive exactly what the protocol's clients receive |
| CustomerCache.CustomerService.Create | backend/src/customer/customer.service.ts:16-30 | adds a customer and clears the tenant's listings |
| CustomerCache.CustomerService.Update | backend/src/customer/customer.service.ts:110-129 | changes an active customer and clears the tenant's listings |
| CustomerCache.CustomerService.Remove | backend/src/customer/customer.service.ts:131-163 | deactivates a customer without pending invoices and clears the tenant's listings |
| CustomerCache.CustomerService.FindAll | backend/src/customer/customer.service.ts:32-80 | answers from the cache if it can, else queries and caches for five minutes; a negative skip is refused and nothing is cached |
| CustomerList.RowsInFigures | backend/src/customer/customer.service.ts:16-163 | what each write does to the rows, and when it is refused |
| CustomerList.ContainsExactly | backend/src/customer/customer.service.ts:45-52 | a text contains another if it spells it somewhere, whatever the case |
| CustomerList.ListedExactly | backend/src/customer/customer.service.ts:40-62 | the list has exactly the tenant's active customers that match, newest first |
| CustomerList.PageInFigures | backend/src/customer/customer.service.ts:54-73 | a page has the customers from its first place on, up to its limit, and the total |
| CustomerList.CachedFiveMinutes | backend/src/customer/customer.service.ts:75-77 | a listing is answered from the cache for less than 300 seconds |
| CustomerCache.KeyInjective | backend/src/customer/customer.service.ts:33 | different listings have different keys, whatever the search text contains |
| CustomerCache.PrefixIsOwn | backend/src/customer/customer.service.ts:25 | a tenant's key pattern matches exactly its own listings |
| CustomerCache.ListingIsDirect | backend/src/customer/customer.service.ts:32-80 | in every run a listing answers what the direct query would |
| CustomerCache.WriteClearsOwn | backend/src/customer/customer.service.ts:24-28 | a write clears its own tenant's listings and no others |
| CustomerCache.RefusedExactly | backend/src/customer/customer.service.ts:54-60 | in every run a listing is refused exactly for a page below 1 with a positive limit |
| CustomerCache.PagesMakeUpTheList | backend/src/customer/customer.service.ts:54-73 | pages 1 to totalPages put together are the whole filtered list |
| RateLimit.WhatsAppService.CheckRateLimits | backend/src/whatsapp/whatsapp.service.ts:24-48 | refuses at 1000 of the tenant, and reminders at 1 of the phone |
| RateLimit.WhatsAppService.SendReminder | backend/src/whatsapp/whatsapp.service.ts:186-274 | checks, sends, and counts only what was sent and recorded |
| RateLimit.WhatsAppService.SendMessage | backend/src/whatsapp/whatsapp.service.ts:82-181 | the same without the phone's limit |
| RateLimit.WhatsAppService.SendBulkReminders | backend/src/whatsapp/whatsapp.service.ts:307-373 | sent plus skipped plus failed is the number of invoices, and each counter counts its details |
| RateLimit.WhatsAppService.ProcessJob | backend/worker-service/src/processors/whatsapp.processor.ts:67-95 | counts first, sets the time to live on the first count, refuses past 250 |
| RateHistory.TotalIsCount | backend/src/whatsapp/whatsapp.service.ts:27-35 | in every run the tenant's total is the number of its messages sent and recorded today |
| RateHistory.ReminderAnswered | backend/src/whatsapp/whatsapp.service.ts:24-48 | in every run a reminder is refused exactly without digits, after 1000 messages today, or while a reminder or a job counts on the phone's key |
| RateHistory.MessageAnswered | backend/src/whatsapp/whatsapp.service.ts:24-35 | any other message exactly without digits or after 1000 messages today |
| RateHistory.JobAnswered | backend/worker-service/src/processors/whatsapp.processor.ts:67-95 | and a job exactly without a phone or once 250 are counted since the key's time began |
| RateHistory.PhoneInFigures | backend/src/whatsapp/whatsapp.service.ts:69-75 | a phone is sent to as its digits, after 91 if there are ten |
| RateLimit.CountIsNumber | backend/src/whatsapp/whatsapp.service.ts:368-373 | each of the three counters is the number of invoices noted like that |
| RateLimit.TurnInFigures | backend/src/whatsapp/whatsapp.service.ts:321-366 | an invoice of a bulk run is skipped exactly without a phone or while its key lives, and one that was sent pauses the run for half a second |
| RateLimit.KeysDiffer | backend/src/whatsapp/whatsapp.service.ts:28-39 | no phone's key is a tenant's daily total |
| RateLimit.AlwaysExpires | backend/worker-service/src/processors/whatsapp.processor.ts:71-74 | in every run every key that is present has a time to live |
| RateLimit.RemindersApart | backend/src/whatsapp/whatsapp.service.ts:53-66 | in every run, for a day after a reminder was sent and recorded, no other reminder of the tenant reaches that phone, whatever the worker counts on the key |
| RateLimit.ReachesAgainExactly | backend/src/whatsapp/whatsapp.service.ts:253-271 | after one reminder has reached a phone a second one reaches it at once if and only if the first was not recorded |
| RateLimit.TenantLimitHolds | backend/src/whatsapp/whatsapp.service.ts:27-35 | in every run the API has at most 1000 messages of a tenant sent and recorded in a day |
| RateLimit.JobsLimited | backend/worker-service/src/processors/whatsapp.processor.ts:76-95 | while a key lives the worker dispatches at most 250 on it |
| RateLimit.WhatsAppService.Meanwhile | backend/src/whatsapp/whatsapp.service.ts:321-366 | whatever the API and the worker do, and however much time passes, before the next invoice of a bulk run |
| RateLimit.BulkSentApart | backend/src/whatsapp/whatsapp.service.ts:332-347 | after an invoice of a bulk run was sent to a phone, no other of the run reaches that phone for a day, whatever comes in between |
| RateLimit.AtMostOneSent | backend/src/whatsapp/whatsapp.service.ts:332-347 | so a bulk run of less than a day notes at most one reminder to each phone as sent |
| RateLimit.ReachedTwice | backend/src/whatsapp/whatsapp.service.ts:332-366 | and if two of its reminders reach one phone, recording the first has failed |
| RateLimit.UnrecordedReachedTwice | backend/src/whatsapp/whatsapp.service.ts:332-366 | a bulk run in which that happens |
| RateLimit.TwoSent | backend/src/whatsapp/whatsapp.service.ts:332-347 | a bulk run in which a day passes sends two to one phone |
| RateLimit.JobHoldsBackExactly | backend/worker-service/src/processors/whatsapp.processor.ts:69 | with nothing counted before, a job holds back the API's reminder if and only if the entered phone is the formatted one |
| RateLimit.TenDigitsAreNotHeldBack | backend/worker-service/src/processors/whatsapp.processor.ts:69 | a phone entered as ten digits is not held back by a job |

## Left out

- Float error, time zones and real clocks: amounts are exact, dates are day numbers, time is a number.
- Overlapping requests: handlers read and then write without guards, and the model runs each as one step. This covers overlapping payments and the Redis calls of one check, but not the sweep's SELECT and UPDATE, which are steps of their own.
- OverdueSweep.Sweep.WithRetry: an update either happens or fails, and a commit whose acknowledgement is lost is not modelled. Which customers have a phone stays the same during a job. Further retries of the whole job by the queue are left out.
- InvoiceLedger.NoWayBack: a row of the sweep checks and updates in one step here; `SweepLog` has the sweep whose query and updates others come between.
- Leave.ApprovalWritesItsDays: leave dates carry no time of day. `apply` counts on timestamps while the stored range has dates only, so for dates given with times the count can differ from the entries written.
- Gst.TaxedOnce: a rate beyond 999.99%, which its column cannot hold and the database refuses, is stored like any other.
- HubProtocol.AlwaysInv: closing a client and queueing its unregister is one step that waits for room in the queue; two pumps closing at the same moment are not modelled. Delivery of one event to all clients is one step, as sends to different clients do not affect each other.
- HubService.Hub.HandleRegister: a room is the entry of its tenant in the hub's map rather than an object of its own, and the two locks are left out because only the hub's loop changes rooms.
- PayrollCalculator.CalculatePayroll: `workingHoursPerDay` must not be zero in the settings, as it divides.
- PayrollLedger.EditKeepsExactly: the member's salary and the settings are those of the processing (for the worker, its built-in ones); an edit reads the current ones, so with others it recomputes with those.
- PayrollLedger.RunConsistent: absent-day counts, notes and payment details of records are left out; they enter no amount.
- InvoiceNumber.NumbersDistinct: years are at least 1, and a number drawn for an invoice whose creation then fails is still used up.
- CustomerCache.ListingIsDirect: tenant ids contain no colon (they are UUIDs), a limit is not negative (the database would list from the end), pages and limits are whole numbers, letters fold case in ASCII only, and customers are ordered by when they were created.
- RateLimit.WhatsAppService.SendBulkReminders: what others do during an invoice's own lookups, sending and half-second pause counts as done before or after it, and the elapsed time likewise.
- RateLimit.WhatsAppService.SendReminder: counting in Redis, once the message is recorded, does not fail half-way.
- RateLimit.TenantLimitHolds: the date in the tenant's key is printed as a day number; INCR and EXPIRE of one handler are one step.
- AmountToWords.Printer.Print: the words are those of the exact amount; a float a hair below a half paisa is left out.
- Publishing and subscribing (`events/publisher.go`, `redis/subscriber.go`): a choice of channel by user or tenant, which the hub's routing repeats.
- `bulkMark`, leave balances, payroll and attendance summaries, the dashboard, GSTR-1 lists: loops and filters that would add only easy members.
- CRM, staff-list and dashboard caches: their keys or their invalidation omit inputs, so they do not agree with the database as written.
- Controllers, guards, tokens, PDF and file storage, e-mail, AI features and the user interface: wiring or calls into code outside the repository.
- Rows of `backend/prisma/seed.ts`: every run starts from an empty database.
