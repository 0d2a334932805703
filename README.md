# Collector finance core in Dafny

Collector is a dashboard for Indian freelancers. This project models its finance
engine and the small list and format helpers in its dashboard pages:

- **`Tax`** (`src/lib/tax.ts`):
  - GST liability under the ₹20L / ₹10L registration thresholds.
  - The simulated 10% TDS withholding by clients paid more than ₹30,000.
  - The new-regime slab tax with its ₹12.75L exemption cliff.
  - The 50% presumptive regime of section 44ADA.
  - The summary that recommends one of the two regimes.
- **`Invoice`** (`src/lib/invoice.ts`): the monthly invoice aggregator.
  - It selects a client's time entries for a month and prices each one rounded.
  - It picks the base by billing model.
  - It adds GST and deducts TDS after an annualised year-to-date test.
- **`Clients`** (clients page): the per-client charge estimate, the column totals, and adding and removing clients.
- **`TimeTracker`** (time page):
  - The start/stop timer and the h/m/s display of a duration.
  - Today's and this week's totals.
  - The seven per-day bars of the week.
- **`Reports`** (reports page): the CSV serialiser `toCSV`.
- **`Invoices`** and **`Expenses`** (invoices and expenses pages): guarded prepends to a list, and list totals.
- **`Common`**: shared helpers.
  - JavaScript's `Math.round`, `Math.max` and `Math.min`.
  - The `reduce` left fold and `filter`.
  - Decimal digit strings.

How the source maps to Dafny:

- Money is an exact `real`.
- `Math.round(x)` is `(x + 0.5).Floor`, so halves go toward +∞.
- The `Number.POSITIVE_INFINITY` slab limit is an `Unbounded` limit.
- Time is integer epoch milliseconds.
- The clock, `crypto.randomUUID()`, today's date, local midnight today and local midnight on Monday are parameters.
- Code that works step by step becomes a method proved equal to a specification function:
  - the GST notes pushes;
  - the TDS dictionary loop;
  - the slab loop with its `break`;
  - the clients `totals` accumulator;
  - the `weekBars` array fill.
- Each page's React state is a class whose methods are the event handlers.
  - Each `setX` call becomes an assignment to field `x`.

## Model

| member | source | states |
|---|---|---|
| Common.Round | src/lib/invoice.ts:36 | `Math.round` gives an integer within half a unit of its argument; an exact half goes up |
| Tax.Gst | src/lib/tax.ts:27-35 | GST is due iff gross receipts reach the threshold (₹10L in a special-category state, ₹20L otherwise) or the user is registered. Then it is 18% of max(0, domestic receipts), otherwise 0, and never negative. The "registration optional" note is present iff the threshold is not exceeded. The zero-rated note is present iff there are export receipts. There are at most two notes |
| Tax.CalculateGST | src/lib/tax.ts:20-36 | the version that pushes notes onto an array returns exactly `Gst` |
| Tax.GstIgnoresExports | src/lib/tax.ts:27-33 | export receipts change neither the threshold test nor the GST owed |
| Tax.GstOwedMonotone | src/lib/tax.ts:32-33 | more domestic receipts never lower the GST owed |
| Tax.GstBelowThresholdExample | src/lib/tax.ts:27-34 | ₹19L of receipts, unregistered and outside a special-category state, stays below the threshold and owes nothing |
| Tax.ByClientSums | src/lib/tax.ts:43-44 | the per-client dictionary has a key for exactly the clients paid, holding the sum of their payments |
| Tax.KeyOrderIsDistinctKeys | src/lib/tax.ts:45 | the dictionary's keys, in first-payment order, are each paid client once |
| Tax.DeductingFilters | src/lib/tax.ts:45-47 | the filter keeps exactly the keys whose sum exceeds ₹30,000, without duplicates |
| Tax.TdsDeductingClients | src/lib/tax.ts:43-53 | a client is listed as deducting iff it was paid more than ₹30,000 in total (strict), and at most once. The withholding is 10% of those totals added up. The notes are the two fixed strings |
| Tax.TdsExample | src/lib/tax.ts:43-53 | payments A ₹20,000, A ₹15,000 and B ₹40,000 list A and B and withhold ₹7,500 |
| Tax.CalculateTDS | src/lib/tax.ts:38-54 | the loop that builds the per-client dictionary in place, followed by the filter and the reduce, returns exactly `Tds` |
| Tax.PortionsPartition | src/lib/tax.ts:71-80 | the bands of an ascending slab table are non-negative and add up to the whole base above the start |
| Tax.SlabLoopIsBandedTax | src/lib/tax.ts:71-80 | the loop with its early `break` equals each band's part of the base taxed at its rate |
| Tax.BandedTaxNonNegative | src/lib/tax.ts:75-76 | with non-negative rates the slab tax is never negative |
| Tax.BandedTaxMonotone | src/lib/tax.ts:74-80 | the slab tax never falls as the base grows |
| Tax.BandedTaxVanishesBelow | src/lib/tax.ts:75-79 | a base that does not reach a band pays nothing in it or above it |
| Tax.NewRegimeSlabsLadder | src/lib/tax.ts:62-70 | the inline table ascends 4L/8L/12L/16L/20L/24L/∞ with rates 0 to 30% |
| Tax.IncomeTax | src/lib/tax.ts:56-82 | no tax up to ₹12.75L. Above it, the slab tax on the income less ₹75,000. Never negative |
| Tax.SlabBaseSplitsIntoBands | src/lib/tax.ts:60-80 | above ₹12.75L the seven bands are non-negative and add up to exactly income − ₹75,000 |
| Tax.IncomeTaxMonotone | src/lib/tax.ts:56-82 | more income never means less tax |
| Tax.IncomeTaxCliff | src/lib/tax.ts:58-81 | ₹12,75,000 pays 0 and ₹12,75,001 pays ₹60,000.15 |
| Tax.AccumulateSlabs | src/lib/tax.ts:71-80 | the loop that updates `remaining`, `lastLimit` and `tax` band by band and breaks once nothing remains computes the slab-loop function for any table |
| Tax.CalculateIncomeTaxNewRegime | src/lib/tax.ts:56-82 | the exemption test, the deduction, the slab loop over the inline table and the final clamp return exactly `IncomeTax` |
| Tax.Presumptive44ADA | src/lib/tax.ts:84-86 | presumptive income is half of gross receipts |
| Tax.EffectiveRate | src/lib/tax.ts:118 | the rate times gross receipts is the tax when receipts are positive, otherwise the rate is 0 |
| Tax.GetTaxSummary | src/lib/tax.ts:88-135 | regular taxable income is max(0, gross − expenses) and presumptive income is half the gross. Each is taxed by `IncomeTax` with its effective rate. Eligible iff gross ≤ ₹50L. Presumptive is recommended iff eligible and strictly cheaper, so a tie gives regular |
| Tax.PresumptiveNoWorseWhenExpensesSmall | src/lib/tax.ts:113-132 | when expenses are at most half the gross, presumptive tax never exceeds regular tax |
| Tax.FortyLakhRecommendsPresumptive | src/lib/tax.ts:113-132 | ₹40L gross with ₹1L expenses costs ₹7,27,500 regular and ₹1,85,000 presumptive, so presumptive is recommended |
| Invoice.MonthFromDate | src/lib/invoice.ts:15-18 | only a string shaped "YYYY-MM-DD" can yield a month, and the month it yields is in 1..12 with a four-digit year |
| Invoice.MonthFromDateIsFormattedDate | src/lib/invoice.ts:15-18 | a string that yields a month is exactly the padded year, month and a day that month has |
| Invoice.ImpossibleDateMatchesNoMonth | src/lib/invoice.ts:15-18 | a well-shaped date naming month 0 or 13..99, or a day the month lacks, yields nothing, so it matches no month |
| Invoice.MonthFromFormattedDate | src/lib/invoice.ts:15-18 | reading the month and year back from a well-formed date gives the values written |
| Invoice.MidJanuary | src/lib/invoice.ts:15-18 | "2025-01-15" is January 2025 |
| Invoice.ItemOf | src/lib/invoice.ts:32-37 | an item's amount is its own hours × rate, rounded |
| Invoice.AggregateMonthlyInvoice | src/lib/invoice.ts:20-66 | client id, name, month and year are echoed, and every item is rounded alone. The subtotal is the sum of rounded items for hourly clients and the fixed amount otherwise. GST is rounded 18% of the base iff domestic and registered. TDS is rounded 10% iff the client deducts and the annualised figure exceeds ₹30,000. Total = subtotal + GST − TDS |
| Invoice.ItemsAreTheMonthsEntries | src/lib/invoice.ts:27-37 | the items are exactly the priced entries of this client dated in the target month |
| Invoice.SingleEntryItems | src/lib/invoice.ts:27-37 | one entry yields exactly one item when it is the client's and in the target month, and none otherwise |
| Invoice.ItemsFollowInputOrder | src/lib/invoice.ts:27-37 | items keep input order: an appended list's items follow the first list's |
| Invoice.IrrelevantEntryIgnored | src/lib/invoice.ts:27-53 | an entry of another client, or one outside the target year up to the target month, changes no field of the invoice |
| Invoice.MonthlyIgnoresEntries | src/lib/invoice.ts:40-53 | a monthly client's subtotal, GST, TDS and total do not depend on the time entries |
| Invoice.MonthlyTdsThresholdExample | src/lib/invoice.ts:51-52 | ₹2,000 a month draws no TDS; ₹3,000 a month draws ₹300 |
| Invoice.SumOfRoundedIsNotRoundedSum | src/lib/invoice.ts:36-38 | two ₹0.50 entries bill ₹2, though their exact sum rounds to ₹1 |
| Clients.CalcRow | src/app/dashboard/clients/page.tsx:68-77 | base is the amount. GST is 18% of it iff domestic and registered. TDS is 10% iff the client deducts and the annualised amount (×12 when monthly) exceeds ₹30,000. Net = base + GST − TDS. The TDS note is chosen by that test alone. For a non-negative base, net lies between 90% and 118% of it |
| Clients.MonthlyThresholdIsStrict | src/app/dashboard/clients/page.tsx:70-73 | a monthly client draws TDS iff it bills more than ₹2,500 a month |
| Clients.RowMatchesMonthlyInvoice | src/app/dashboard/clients/page.tsx:68-77 | for a monthly client the row has the invoice's base, and its GST and TDS round to the invoice's |
| Clients.TotalsAreColumnSums | src/app/dashboard/clients/page.tsx:79-91 | the totals are the column sums of the rows, and net = base + GST − TDS |
| Clients.ComputeTotals | src/app/dashboard/clients/page.tsx:79-91 | the accumulator loop returns the row sums; net balances; an empty list gives zeros |
| Clients.MemoTotalsAsWritten | src/app/dashboard/clients/page.tsx:79-91 | the memo keeps its value while the client list is unchanged, whatever the GST flag |
| Clients.StaleTotalsAfterGstToggle | src/app/dashboard/clients/page.tsx:79-91 | after the GST flag is toggled, the memo still holds the totals for the old flag |
| Clients.GstToggleChangesTotals | src/app/dashboard/clients/page.tsx:71-91 | a domestic client with a positive amount has GST 0 unregistered and 18% registered |
| Clients.MemoTotals | src/app/dashboard/clients/page.tsx:79-91 | a memo keyed on both inputs always holds the totals of the current rows |
| Clients.WithoutIdKeepsOthers | src/app/dashboard/clients/page.tsx:64-66 | removal keeps exactly the clients with another id, works piecewise on a concatenation, and is idempotent |
| Clients.ClientsPage.constructor | src/app/dashboard/clients/page.tsx:22-31 | no clients, unregistered; form defaults to Monthly ₹25,000, domestic, deducting |
| Clients.ClientsPage.AddClient | src/app/dashboard/clients/page.tsx:54-62 | an empty name or zero amount changes nothing. Otherwise exactly one client built from the form goes first, the others follow unchanged, and name and email are cleared |
| Clients.ClientsPage.RemoveClient | src/app/dashboard/clients/page.tsx:64-66 | the list becomes the filtered list: exactly the clients with another id, in order |
| Clients.ClientsPage.SetGstRegistered | src/app/dashboard/clients/page.tsx:100 | the checkbox sets the GST-registration flag and nothing else |
| Clients.ClientsPage.CurrentTotals | src/app/dashboard/clients/page.tsx:79-91 | the corrected totals (those `MemoTotals` holds): the column sums of the current rows under the current GST flag, balanced like each row |
| TimeTracker.DurationParts | src/app/dashboard/time/page.tsx:14-18 | for a non-negative duration with t whole seconds: h·3600 + m·60 + s = t, 0 ≤ m < 60, 0 ≤ s < 60, h ≥ 0 |
| TimeTracker.FormatDurationExample | src/app/dashboard/time/page.tsx:14-20 | 3,661,999 ms prints as "1h 1m 1s" |
| TimeTracker.StartKeepsOneRunning | src/app/dashboard/time/page.tsx:39-44 | starting while nothing runs leaves the new entry as the only running one |
| TimeTracker.StopLeavesNoneRunning | src/app/dashboard/time/page.tsx:46-50 | stopping stamps the running entry only, leaves the others untouched, and leaves nothing running |
| TimeTracker.TimeTrackerPage.constructor | src/app/dashboard/time/page.tsx:23-26 | project "General", empty task, no entries, nothing running |
| TimeTracker.TimeTrackerPage.StartTimer | src/app/dashboard/time/page.tsx:39-44 | does nothing while running; otherwise prepends one entry started now and running, and records its id. At most one entry runs, and it is the recorded one |
| TimeTracker.TimeTrackerPage.StopTimer | src/app/dashboard/time/page.tsx:46-50 | does nothing when idle; otherwise stamps the running entry with now and clears the id. Afterwards no entry runs |
| TimeTracker.TrackedSince | src/app/dashboard/time/page.tsx:54-58 | today's (and this week's) total is never negative |
| TimeTracker.EarlierEntryIgnored | src/app/dashboard/time/page.tsx:54-58 | an entry started before the cut-off adds nothing, wherever it stands |
| TimeTracker.LaterCutOffCountsLess | src/app/dashboard/time/page.tsx:54-71 | a later cut-off never counts more, so today's total is at most the week's |
| TimeTracker.BucketMs | src/app/dashboard/time/page.tsx:79-86 | every weekday bucket is non-negative |
| TimeTracker.BarsSplitWeeklyTotal | src/app/dashboard/time/page.tsx:60-86 | the seven bars plus the time of entries started a week or more after Monday equal the weekly total |
| TimeTracker.WeekBars | src/app/dashboard/time/page.tsx:74-86 | a fresh seven-slot array whose slot k holds the time of the entries started on day k of the week |
| Reports.Lookup | src/app/dashboard/reports/page.tsx:7 | a missing key reads as absent; otherwise the value under the key |
| Reports.SplitJoin | src/app/dashboard/reports/page.tsx:7-8 | splitting undoes joining when no part holds the separator |
| Reports.ToCSVEmpty | src/app/dashboard/reports/page.tsx:6-8 | no rows give the empty string |
| Reports.CSVLines | src/app/dashboard/reports/page.tsx:5-9 | with newline-free keys and values there are exactly rows + 1 lines. The first is the first row's keys joined by ","; line i + 1 holds row i's cells in that key order |
| Reports.CSVFields | src/app/dashboard/reports/page.tsx:5-9 | with comma-free cells, splitting a data line on "," recovers the row's values in header order, and a missing key gives an empty field |
| Reports.UnquotedCommaSplits | src/app/dashboard/reports/page.tsx:7 | values are not quoted as section 2 of RFC 4180 requires: a value "a,b" reads back as two fields |
| Invoices.TotalAppend | src/app/dashboard/invoices/page.tsx:40-42 | the total of joined item lists is the sum of their totals, and one item adds its hours × rate |
| Invoices.TotalNonNegative | src/app/dashboard/invoices/page.tsx:40-42 | non-negative hours and rates give a non-negative total |
| Invoices.NewInvoice | src/app/dashboard/invoices/page.tsx:26-35 | the created invoice is unpaid, dated today, and has one item whose hours × rate is its total |
| Invoices.InvoicesPage.constructor | src/app/dashboard/invoices/page.tsx:18-22 | no invoices; empty client and item; 1 hour at ₹1,500 |
| Invoices.InvoicesPage.AddItem | src/app/dashboard/invoices/page.tsx:24-38 | an empty client or item changes nothing. Otherwise exactly one new invoice goes first, the others follow unchanged, and only the item description is cleared |
| Expenses.TotalPrepend | src/app/dashboard/expenses/page.tsx:30 | adding an expense in front raises the total by exactly its amount |
| Expenses.TotalNonNegative | src/app/dashboard/expenses/page.tsx:30 | non-negative amounts give a non-negative total |
| Expenses.Initial | src/app/dashboard/expenses/page.tsx:12-15 | the two starting expenses total ₹2,099 |
| Expenses.ExpensesPage.constructor | src/app/dashboard/expenses/page.tsx:12-18 | the two starting expenses; category "Laptop", ₹50,000, empty note; every amount positive |
| Expenses.ExpensesPage.Add | src/app/dashboard/expenses/page.tsx:20-28 | a zero or negative amount changes nothing. Otherwise one expense from the form goes first, the total rises by its amount, and amount and note are reset while the category stays. Every amount stays positive, so the total stays non-negative |

## Left out

- Floating point: sums and products are exact reals, so binary rounding error (e.g. in `base * 0.18`) is not reproduced.
- NaN is not modelled:
  - the `!amount` test of `addClient` and `add` treats only 0 as falsy;
  - form parsing with `parseFloat`, falling back to 0, is not modelled.
- Clients.ClientsPage.AddClient: a NaN amount, which the source also refuses, has no counterpart among reals.
- Expenses.ExpensesPage.Add: likewise, a NaN amount is not modelled.
- Rendering is not modelled:
  - `Intl.NumberFormat` currency formatting;
  - `toLocaleString` of times;
  - the bar heights of the week chart;
  - the one-decimal hours shown on each bar (src/app/dashboard/time/page.tsx:88) and its labels.
- The GST note's `(threshold / 100000).toFixed(0)` is written as the two strings it yields, "10" and "20".
- `Object.entries` lists integer-like keys first in numeric order. `clientsDeducting` is modelled in first-payment order: its membership is exact, its order only for non-numeric ids.
- Dates:
  - Local-time parsing of `date + "T00:00:00"` is abstracted to reading the digits of a "YYYY-MM-DD" string.
  - Strings JavaScript would roll over (e.g. "2025-02-30") or reject are treated as matching no month.
- The ambient clock is a parameter:
  - `Date.now()`;
  - today's date;
  - local midnight today and on Monday (the `setDate`/`setHours` computations).
  - Daylight-saving shifts in the 24-hour day length are not modelled.
- `crypto.randomUUID()` is a parameter. It is not assumed fresh: two entries may share an id.
- Memo and effect timing on the time page is not modelled:
  - `weeklyMs` and `weekBars` are recomputed only when `entries` changes, while the one-second tick redraws the page;
  - the model computes them from the current `now`.
- Persistence and wiring are not modelled:
  - localStorage loading and saving;
  - the timer's interval effect;
  - CSV download through a Blob;
  - the "Export PDF" and "Mark Paid" buttons, which have no handlers;
  - the fixed sample data of the reports page.
- Reports: a number cell is modelled for integers only; `String(x)` of a fractional number is not modelled.
- Reports: three `toCSV` details are not modelled:
  - `Object.keys` lists integer-like keys first, in numeric order; a row's fields are kept in insertion order.
  - A `Row` may repeat a key, which a JavaScript object cannot; the header then repeats it.
  - `String(n)` writes |n| ≥ 10^21 in exponent form; `IntToDecimal` writes every digit.
- Clients.MemoTotalsAsWritten: compares client lists by value, while React compares the array by identity. A new array with the same clients (deleting an id already removed) recomputes the totals in React but not in the model.
- The exported `NEW_REGIME_SLABS` constant is unused by the code; the inline table is modelled instead.
- `formatDuration` of a negative duration follows JavaScript's truncating `%` (modelled as `JsRem`), but nothing is proved about it; the page never passes one.

## Findings

| source | as written | input that shows it | evidently intended | confidence | as-written member | corrected member |
|---|---|---|---|---|---|---|
| src/app/dashboard/clients/page.tsx:79-91 | the `totals` memo lists only `clients` as a dependency, yet each row's GST reads `gstRegistered` | one domestic client billing ₹1,000 a month, then tick "GST registered": the row shows ₹180 GST, the GST total still ₹0 | totals follow the checkbox like the rows, with dependencies `[clients, gstRegistered]` | high; not executed | Clients.StaleTotalsAfterGstToggle | Clients.MemoTotals |
