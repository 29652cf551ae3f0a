# Construction back end: invoices, payments, job actions, dashboard and validators

This project models the core rules of a Django back end for a construction
business.

- **Invoice and payment ledger.** This comes from the models. An invoice derives
  its subtotal, tax, total and balance from its cost fields. `Invoice.save`
  numbers a new invoice `INV-<n:05d>` and gives it a due date thirty days out.
  `Payment.save` recomputes the invoice's `amount_paid` from all of its payments
  and marks the invoice PAID once that covers the total. The `Ledger` class holds
  the invoice and payment tables as sequences. Its methods `CreateInvoice` and
  `RecordPayment` keep the tables consistent:
  - ids increase;
  - numbers and jobs are unique;
  - every payment belongs to an invoice;
  - both operations leave `amount_paid` equal to the sum of the invoice's
    payments.
- **View logic.**
  - The overdue sweep bulk-marks invoices OVERDUE.
  - The job actions confirm, start and complete operate on a `JobBoard` class.
  - The job lists are upcoming and needs-confirmation.
  - The dashboard statistics are pure functions over the stored rows, plus the
    methods that accumulate them.
  - The chart helpers are the cyclic palette, the month run and the de-duplicated
    Excel sheet titles.
  - The request handling of the top-materials API is the limit clamp, payload
    normalisation and the id check of an update.
- **Serializer validators.**
  - Payment amount must be positive.
  - Job dates must be in order.
  - Estimate dates are filled in automatically.
  - The registration password must be confirmed.
  - Customer email must be unique regardless of letter case.
  - Worker required fields, username and email are checked.
  - An invoice's paid amount must not be negative.

Representation:

- Decimal amounts are exact `real`s and dates are day numbers.
- `timezone.now()` is a parameter: `today` for dates, `now` for the
  `updated_at` timestamps.
- Python's `int()` of a string, `str.split('-')[-1]`, `str.lower()` and
  `format(n, '05d')` are written out in `text.dfy`. Both `int()` and `format()`
  refuse numbers of more than 4300 digits, Python's default limit on
  conversions between integers and decimal text. `int()` skips the whitespace
  around its digits: ASCII spaces, tabs and line breaks, and the non-ASCII
  Unicode spaces. It does not skip the separators U+001C to U+001F.
- Request and serializer data are maps from field name to a `Value` with
  Python's truth test (`pyvalue.dfy`).

Three behaviours of the code worth knowing:

- **Invoice numbering.** A new number is one past the number of the most
  recently inserted invoice (`order_by('-id').first()`). It is not one past the
  largest number in the table. So after an invoice saved with a caller-given
  number, a generated number can already be in use, and the insert then fails on
  the unique constraint. `Ledger.NextNumberCanCollide` proves this.
- **Recent activity.** The feed has `min(6, min(5, |jobs|) + min(5, |invoices|))`
  entries, not `min(6, |jobs| + |invoices|)`. Each side is cut to five before the
  merge.
- **Overdue status.** After the sweep an invoice is OVERDUE when it was overdue or
  was OVERDUE already. An OVERDUE invoice that is not past due keeps its status.

## Model

| member | source | states |
|---|---|---|
| Text.StripStartSpec | construction/models.py:272 | the leading text that int() skips is all whitespace, and what it keeps does not start with whitespace |
| Text.StripEndSpec | construction/models.py:272 | the trailing text that int() skips is all whitespace, and what it keeps does not end with whitespace |
| Text.ParseIntSkipsSpace | construction/models.py:272 | a whitespace character in front of the text does not change what int() reads |
| Text.ParseIntRejectsSeparator | construction/models.py:272 | int() fails on text that starts with one of the separators U+001C to U+001F |
| Text.ParseIntDigits | construction/models.py:272 | `int()` reads a non-empty digit string, leading zeros included, as its decimal value when it has at most 4300 digits, and rejects it when it has more |
| Text.ParseZeroPad | construction/models.py:272-273 | `int()` reads back `format(n, '05d')` as n whenever that text has at most 4300 digits, and rejects it otherwise |
| Text.AfterLastDashOfSuffix | construction/models.py:272 | `split('-')[-1]` of `p + "-" + d` is d whenever d has no dash |
| Models.FullName | construction/models.py:28-30 | the full name is one character longer than the two names together; it starts with the first name, then one space, then ends with the last name |
| Models.FullNameDeterminesNames | construction/models.py:28-30 | two customers whose first names have no space and whose full names agree have the same first and last names |
| Models.VisitWindowCloses | construction/models.py:105-111 | is_within_3_days_of_visit only turns false as days pass; more than three days after the visit it is false for good |
| Models.NeedsConfirmationDays | construction/models.py:158-163 | a scheduled job needs confirmation exactly on the five days before its start, and not on its start day |
| Models.JobMaterialCost | construction/models.py:166-169 | total_material_cost is 0 for a job without materials and never negative when quantities and unit costs are not |
| Models.MaterialSpendSplits | construction/models.py:166-169 | the spend on all materials is one job's total_material_cost plus the spend on the other jobs' materials |
| Models.BalanceDue | construction/models.py:300-305 | balance_due plus amount_paid is total_amount; the balance is at most 0 exactly when the payments cover the total |
| Models.TotalIsTaxedSubtotal | construction/models.py:283-298 | total_amount is subtotal·(100 + tax_rate)/100; with costs ≥ 0 and a rate in [0, 100], the tax lies in [0, subtotal] and the total in [subtotal, 2·subtotal] |
| Models.InvoiceTotalsExample | construction/models.py:283-305 | 10000 + 5000 + 1000 at 16% gives subtotal 16000, tax 2560 and total 18560; with 5000 paid the balance is 13560 |
| Models.InvoiceNumberRoundTrip | construction/models.py:272-273 | the suffix after the last dash of `INV-{n:05d}` parses back to n when n has at most 4300 digits, and is rejected otherwise |
| Models.FormatInvoiceNumberInjective | construction/models.py:273 | different sequence numbers give different invoice numbers; padding widens and never truncates |
| Models.FirstInvoiceNumberIsOne | construction/models.py:273-275 | the first number `INV-00001` is what the format gives for 1 |
| Models.FirstInvoiceSequence | construction/models.py:272-275 | the number following `INV-00001` is generated from sequence 1 |
| Models.InvoiceNumberExamples | construction/models.py:273 | 2 formats as `INV-00002` and 123456 as `INV-123456` |
| Models.NextInvoiceNumber | construction/models.py:268-275 | with no invoice the number is `INV-00001`; otherwise it fails as a bad last number exactly when int() rejects the last number's suffix, else it fails as too long exactly when the suffix plus 1 has more than 4300 digits, and else it is the format of the suffix plus 1 |
| Models.NextNumberReadsBack | construction/models.py:268-275 | when the last number's suffix reads as n and n + 1 has at most 4300 digits, a number is handed out and it reads back as n + 1 |
| Models.InvoiceSequenceNonNegative | construction/models.py:272 | the suffix after the last dash has no minus sign, so when int() accepts it the value is never negative |
| Models.NextAfterParsed | construction/models.py:268-275 | a last number whose suffix reads as n is followed by the formatted n + 1, or fails as too long when n + 1 has more than 4300 digits |
| Models.PaidTotalAppend | construction/models.py:345-349 | a new payment adds its amount to its own invoice's paid total and nothing to any other invoice's |
| Models.ApplyPaymentsStatus | construction/models.py:345-352 | after a payment is saved, amount_paid is the sum of the invoice's payments; the status is PAID exactly when that covers the total or it was PAID already, and is otherwise unchanged |
| Models.RecomputeMatchesIncrement | construction/models.py:345-349 | when amount_paid was up to date, recomputing it after a payment equals adding that payment's amount |
| Ledger.ConflictIff | construction/models.py:236-239 | the insert is refused exactly when a stored invoice has the same number or the same job |
| Ledger.SaveNewNumber | construction/models.py:268-275 | a number the caller gives is kept; into an empty table a numberless invoice gets `INV-00001` |
| Ledger.SaveNewNextNumber | construction/models.py:268-274 | a numberless invoice saved after one whose number reads as n fails as too long when n + 1 has more than 4300 digits, and whenever it is saved it is numbered with the formatted n + 1 |
| Ledger.SaveNewUnreadableLast | construction/models.py:268-272 | a numberless invoice saved after one whose number int() rejects is refused, naming that number |
| Ledger.SaveNewDueDate | construction/models.py:277-281 | the due date is today + 30 unless one was given, which is kept; the invoice date is today and nothing is paid yet |
| Ledger.SaveNewSucceeds | construction/models.py:267-281 | a save succeeds exactly when a number can be had and no stored invoice has that number or that job |
| Ledger.FirstInvoiceSaved | construction/models.py:267-281 | into an empty table a numberless invoice with no due date is saved as `INV-00001`, due today + 30 |
| Ledger.NumberFollowsLastInserted | construction/models.py:269-273 | after the last inserted invoice `INV-<n>` the new number is `INV-<n+1>`, whatever else is stored, and the save succeeds exactly when n + 1 has at most 4300 digits and that number and the job are free |
| Ledger.NextNumberCanCollide | construction/models.py:269-273 | when `INV-<n+1>` was stored earlier than the last inserted `INV-<n>`, a numberless save fails, and the failure is a duplicate number whenever n + 1 has at most 4300 digits |
| Ledger.InsertKeepsConsistent | construction/models.py:267-281 | inserting an unpaid invoice with the next id, a number no stored invoice has and a job no stored invoice has keeps the tables consistent |
| Ledger.PaymentKeepsConsistent | construction/models.py:345-352 | storing a payment and re-deriving its invoice keeps the tables consistent |
| Ledger.SumPayments | construction/models.py:347-349 | the loop that adds up the payments yields the invoice's paid total |
| Ledger.Ledger.CreateInvoice | construction/models.py:267-281 | the new invoice is what `SaveNew` gives with the next id; on success it is appended and the invoice counter goes up by one, on failure the tables and counters are unchanged; the payment counter never changes; consistency is kept |
| Ledger.Ledger.RecordPayment | construction/models.py:345-352 | fails exactly for an unknown invoice, changing nothing; otherwise it stores the payment (dated today unless given) with the next payment id, the payment counter goes up by one, and that one invoice is re-derived; the invoice counter never changes; consistency is kept |
| Ledger.Ledger.StorePayment | construction/models.py:344-352 | appends the payment, counts it and replaces its invoice by the re-derived one, keeping the tables consistent |
| InvoiceViews.OverdueQuery | construction/views.py:757-761 | the overdue filter (SENT or OVERDUE, due before today) selects exactly the invoices whose is_overdue holds |
| InvoiceViews.SweepStatus | construction/views.py:754-765 | after the sweep an invoice is OVERDUE exactly when it was overdue or already OVERDUE; only the status changes, and invoices that are not overdue are untouched |
| InvoiceViews.SweepIdempotent | construction/views.py:754-765 | a second sweep on the same day changes nothing |
| InvoiceViews.SweepKeepsKeys | construction/views.py:762 | the sweep changes no id, number, job or paid amount |
| InvoiceViews.OverdueListing | construction/views.py:754-772 | the listed invoices come newest invoice date first, are all OVERDUE and among the unpaid ones, every overdue invoice is listed, and their number is the count of overdue invoices |
| InvoiceViews.MarkOverdue | construction/views.py:754-765 | the stored invoices become the swept table, the payments and counters are unchanged, the ledger stays consistent, and the answer is the rows the query selects afterwards, newest invoice date first |
| JobViews.ActIgnoresStatus | construction/views.py:671-699 | confirm, start and complete do not depend on the previous status, and the job they yield does not need confirmation |
| JobViews.NeedsConfirmationListAgrees | construction/views.py:642-669 | the needs-confirmation list is exactly the jobs whose needs_confirmation holds, earliest scheduled start first, and each of them is upcoming |
| JobViews.JobBoard.Confirm | construction/views.py:671-679 | the job with the id becomes CONFIRMED, confirmed today and updated now, and no other job changes; an unknown id changes nothing |
| JobViews.JobBoard.Start | construction/views.py:681-689 | the job with the id becomes IN_PROGRESS, started today and updated now, and no other job changes; an unknown id changes nothing |
| JobViews.JobBoard.Complete | construction/views.py:691-699 | the job with the id becomes COMPLETED, ended today and updated now, and no other job changes; an unknown id changes nothing |
| Dashboard.TotalRevenue | construction/views.py:120 | total revenue is 0 when no invoice is PAID |
| Dashboard.PendingRevenue | construction/views.py:121-123 | pending revenue is 0 when every invoice is PAID |
| Dashboard.RevenueAddsUp | construction/views.py:120-123 | realised plus pending revenue is all totals minus the amounts paid on unpaid invoices |
| Dashboard.PendingRevenueNonNegative | construction/views.py:121-123 | pending revenue is never negative while no unpaid invoice is overpaid |
| Dashboard.Percentage | construction/views.py:126-130 | a ratio is 0 for an empty whole, otherwise 100·part/whole, and it lies in [0, 100] when part ≤ whole |
| Dashboard.WorkerAvailability | construction/views.py:124-126 | worker availability lies in [0, 100] and is 0 without workers |
| Dashboard.CustomerSatisfaction | construction/views.py:130 | customer satisfaction lies in [0, 100] and is 0 without jobs |
| Dashboard.AverageJobDurationBounds | construction/views.py:127-129 | the average job duration lies between the shortest and the longest scheduled duration |
| Dashboard.MaterialSpend | construction/views.py:131-133 | material spend is 0 without materials |
| Dashboard.OverdueCountMatchesProperty | construction/views.py:119 | the overdue count is the number of invoices whose is_overdue holds |
| Dashboard.Merged | construction/views.py:134-147 | the merged entries are the jobs' entries followed by the invoices' entries |
| Dashboard.RecentActivityShape | construction/views.py:134-148 | the feed is newest first and has min(6, min(5, jobs) + min(5, invoices)) entries |
| Dashboard.RecentActivityFromInputs | construction/views.py:134-148 | every feed entry is the entry of a stored job or a stored invoice |
| Dashboard.LatestJobsAreNewest | construction/views.py:134 | the five jobs taken are newest first, stored jobs, and none left out is newer |
| Seqs.InsertDescAfterEqual | construction/views.py:149 | inserting an entry into the sorted entries puts it after every entry with an equal or later timestamp and before the older ones, so the sort keeps entries with equal timestamps in their input order, as Python's stable sort does |
| Seqs.SortAsc | construction/models.py:150-151 | the ascending ordering of jobs by scheduled start date: the result is in ascending key order and a permutation of its input |
| Dashboard.SumPending | construction/views.py:121-123 | the accumulating loop yields the pending revenue |
| Dashboard.AppendJobEntries | construction/views.py:135-141 | the job loop appends one entry per job, in order, after what was there |
| Dashboard.AppendInvoiceEntries | construction/views.py:142-148 | the invoice loop appends one entry per invoice, in order, after what was there |
| Dashboard.CollectActivity | construction/views.py:134-148 | the two append loops, the sort and the cut yield the recent-activity feed |
| Dashboard.DashboardStats | construction/views.py:106-170 | every field of the statistics is the count, sum, ratio or feed defined for it; in particular the available workers are counted among all workers, so there are never more of them than workers |
| Charts.Palette | construction/views.py:69-77 | count colours (none for count ≤ 0), colour i is CHART_COLORS[i mod 5], the palette repeats every 5, and the first five differ |
| Charts.MonthIndexStep | construction/views.py:91-103 | a valid month is determined by its index, and the month whose index is one more is the next calendar month |
| Charts.MonthSequence | construction/views.py:91-103 | exactly count months (none for count ≤ 0), each in 1..12, oldest first, each the calendar month after the one before, the last being the anchor |
| Charts.TitleInjective | construction/views.py:486-491 | different suffixes give different sheet titles |
| Charts.FreeTitle | construction/views.py:486-491 | the suffix loop ends with the first title from the base upwards that is not taken |
| Charts.PlacedStep | construction/views.py:484-504 | placing the next chart with a free title keeps what holds of the titles placed so far |
| Charts.ChartSheetTitles | construction/views.py:484-504 | one title per chart: "Chart i" with a suffix, cut to 31 characters, never an existing sheet's title nor an earlier chart's, and the suffix is the first one whose title is free: every smaller suffix gives a taken title |
| Charts.BareTitleWhenFree | construction/views.py:484-504 | a chart whose bare title "Chart i" is free gets it, with suffix 1 |
| Charts.ShortTitlesAreUnique | construction/views.py:484-504 | when no chosen title exceeds 31 characters, the chart sheets get distinct titles that no existing sheet had |
| MaterialsApi.ClampLimit | construction/views.py:888-892 | the limit lies in [1, 50]; it is 10 when missing or when int() rejects it (more than 4300 digits included), the parsed value when in range, and 1 or 50 beyond it |
| MaterialsApi.ClampLimitTooManyDigits | construction/views.py:888-892 | a limit of more than 4300 digits falls back to 10, not to the cap of 50 |
| MaterialsApi.ClampLimitStable | construction/views.py:888-892 | sending back the clamped limit yields the same limit |
| MaterialsApi.NormalizePayload | construction/views.py:927-934 | a non-empty list is kept, an object becomes a list of one, an empty list and anything else are rejected with their messages |
| MaterialsApi.LookupKeyAgrees | construction/views.py:937-942 | a string id that spells n, the number n, a whole float n, and True/False against 1/0 all look up the same row; a string of more than 4300 digits makes the lookup fail instead |
| MaterialsApi.TruncateTowardZero | construction/views.py:937-942 | a float id is cut toward zero to the whole number next to it |
| MaterialsApi.UpdateTarget | construction/views.py:936-942 | rejected as missing exactly when the id is absent or falsy; found exactly when its key is stored; a not-found error names an unstored key |
| MaterialsApi.UpdateTargets | construction/views.py:954-962 | all records succeed exactly when each does, with one target per record; otherwise the error is that of the first failing record |
| MaterialsApi.UpdateMaterials | construction/views.py:927-962 | a successful update touches at least one record and only stored materials; an object payload is checked as a single record |
| Serializers.ValidateAmount | construction/serializers.py:242-246 | rejected exactly when the amount is ≤ 0, with its message; otherwise returned unchanged |
| Serializers.JobValidate | construction/serializers.py:196-214 | accepted exactly when neither date pair has both dates with the end before the start; the scheduled pair is reported first; attrs are returned unchanged |
| Serializers.JobValidateDates | construction/serializers.py:196-214 | with all four dates given, a job passes exactly when each end is on or after its start (equal dates pass) |
| Serializers.EstimateValidate | construction/serializers.py:134-142 | SENT without a sent date gets today, ACCEPTED/REJECTED without a response date gets today, given dates are kept and no other key changes |
| Serializers.EstimateFillIdempotent | construction/serializers.py:134-142 | validating filled attrs again, on any day, changes nothing |
| Serializers.RegistrationValidate | construction/serializers.py:32-35 | rejected exactly when the two passwords differ, with its message; otherwise attrs are returned unchanged |
| Serializers.RegistrationCreate | construction/serializers.py:37-40 | the user is created from every field except password2 |
| Serializers.RegistrationKeepsPassword | construction/serializers.py:32-40 | a validated registration creates its user with the password typed twice and without the confirmation field |
| Serializers.ValidateEmail | construction/serializers.py:52-58 | rejected exactly when a customer has the email in some letter case and the instance being updated does not; otherwise the value is returned unchanged |
| Serializers.ValidateEmailIgnoresCase | construction/serializers.py:52-58 | emails that agree in lower case get the same verdict |
| Serializers.NewCustomerEmailClash | construction/serializers.py:52-57 | a new customer cannot take a stored email written in another case |
| Serializers.MissingFields | construction/serializers.py:81-82 | the missing fields are exactly the required fields that are absent or empty |
| Serializers.WorkerValidate | construction/serializers.py:79-91 | on update anything passes; on create it passes exactly when no required field is missing, the username is new and the email is new in every case; all missing fields are reported together, then a taken username, then a taken email, each with its message |
| Serializers.WorkerCreateIsNew | construction/serializers.py:79-91 | a created worker's username matches no user and its email matches no user's in any case |
| Serializers.WorkerUpdate | construction/serializers.py:109-114 | the worker is updated with every field except the four user fields |
| Serializers.InvoiceValidate | construction/serializers.py:278-283 | rejected exactly when amount_paid is given and negative (missing counts as 0); otherwise attrs are returned unchanged |

The definitions these rows are about follow the source line for line. Each is
named here with the lines it models and the members above that characterise it:

- `Text.ParseInt` is `int()` of a string (construction/models.py:272,
  construction/views.py:889), with its 4300-digit limit. It is characterised by
  `ParseIntDigits`, `ParseZeroPad`, `ParseIntSkipsSpace`,
  `ParseIntRejectsSeparator`, `ClampLimitTooManyDigits` and the `Strip*Spec`
  lemmas.
- `Models.Subtotal`, `Models.TaxAmount` and `Models.TotalAmount` are the three
  invoice properties (construction/models.py:283-298). See `TotalIsTaxedSubtotal`,
  `BalanceDue` and `InvoiceTotalsExample`.
- `Models.IsOverdue` is construction/models.py:307-312, characterised by
  `OverdueQuery`, `SweepStatus` and `OverdueCountMatchesProperty`.
- `Models.IsWithin3DaysOfVisit` is construction/models.py:105-111, characterised
  by `VisitWindowCloses`.
- `Models.NeedsConfirmation` is construction/models.py:158-163, characterised by
  `NeedsConfirmationDays`, `ActIgnoresStatus` and `NeedsConfirmationListAgrees`.
- `Models.TotalCost` is a material's total_cost (construction/models.py:222-225).
  It is summed by `JobMaterialCost` and `MaterialSpendSplits`.
- `Models.PaidTotal` and `Models.ApplyPayments` are `Payment.save`
  (construction/models.py:344-352). See `PaidTotalAppend`, `ApplyPaymentsStatus`,
  `RecomputeMatchesIncrement`, `SumPayments` and `RecordPayment`.
- `Models.FormatInvoiceNumber` is `f"INV-{n:05d}"` (construction/models.py:273).
  See `InvoiceNumberRoundTrip` and `FormatInvoiceNumberInjective`.
- `Ledger.SaveNew` is `Invoice.save` on a new row (construction/models.py:267-281).
  See `SaveNewNumber`, `SaveNewNextNumber`, `SaveNewUnreadableLast`, `SaveNewDueDate`, `SaveNewSucceeds`,
  `ConflictIff` and `CreateInvoice`.
- `InvoiceViews.SweepAll` is the overdue bulk update (construction/views.py:754-765).
  See `SweepStatus`, `SweepIdempotent`, `SweepKeepsKeys` and `MarkOverdue`.
- `InvoiceViews.Unpaid` is the unpaid filter (construction/views.py:767-772). It
  and the overdue listing are put in Invoice's ordering, newest `invoice_date`
  first (construction/models.py:259-260), by `InvoiceViews.NewestFirst`. See
  `OverdueListing`.
- `JobViews.Act` is the field update of the three job actions
  (construction/views.py:671-699). See `ActIgnoresStatus` and the `JobBoard`
  methods.
- `JobViews.NeedsConfirmationList` (construction/views.py:659-669) and
  `JobViews.UpcomingList` (construction/views.py:642-650) are the two job lists,
  in Job's ordering, earliest `scheduled_start_date` first
  (construction/models.py:150-151). See `NeedsConfirmationListAgrees`.
- `Seqs.SortDesc` and `Seqs.SortAsc` are Python's and the database's stable
  sorts. See `InsertDescAfterEqual`, `SortDescMembers` and `SortAscMembers`.
- `Dashboard.AverageJobDuration` is construction/views.py:127-129. See
  `AverageJobDurationBounds`.
- `Dashboard.RecentActivity`, `Dashboard.LatestJobs` and `Dashboard.LatestInvoices`
  are the activity feed (construction/views.py:134-148). See
  `RecentActivityShape`, `RecentActivityFromInputs`, `LatestJobsAreNewest` and
  `CollectActivity`.

## Left out

- Rounding and floats: `float()`, `round(…, 2)` and `Decimal(str(…))`. The
  model computes the exact values they round, and Decimal's 28-digit context is
  not modelled.
- Unicode: `str.lower()` and the database's case-insensitive `iexact` are
  modelled on ASCII letters only.
- Text.ParseInt: `int()` also reads non-ASCII decimal digits, such as
  Arabic-Indic or full-width ones. The model reads ASCII digits only and rejects
  the others.
- Ledger.Ledger.CreateInvoice: `amount_paid` is not a creation field, and every
  new invoice starts with 0 paid. Writes of `amount_paid` outside the two ledger
  operations are not modelled, for example through the admin form or by code
  that sets it and saves. After such a write the stored amount need not be the
  sum of the payments until the next payment is saved.
- The database:
  - querysets, `select_related`, the order the database gives rows with equal
    sort keys (the model keeps them in storage order), viewset CRUD,
    permissions, authentication, routing and the admin;
  - races between the invoice-number read and the insert, and between the
    payment sum and the invoice update, which the code does not lock.
- Dates and time: `timezone.now()` is a parameter. Timestamps are integers,
  ordered as their ISO strings are. `Ledger.SaveNew` takes one `today` for both
  dates of a new invoice, but `invoice_date` (auto_now_add) is the server's
  local date and the default `due_date` is `timezone.now().date()`, so with
  time-zone support the two can be a day apart around midnight. The database average of durations
  (microseconds) is modelled as the floor of the mean in days.
- Rendering and exports: chart figures, PNG/base64 encoding, the PDF layout and
  the Excel workbook content. `_palette` ignores its `values` and `cmap_name`
  arguments, and its guard for an empty `CHART_COLORS` never fires, because the
  constant has five colours.
- Charts.ChartSheetTitles: does not model openpyxl renaming a sheet whose
  truncated title is already taken. The model takes `title[:31]` as the sheet's
  title, so uniqueness is proved only for titles of at most 31 characters.
- The `reports` view and its placeholder pending revenue (count × 1000).
- MaterialsApi.UpdateMaterials: stops at the id check. The MaterialSerializer
  field validation and save that follow are not modelled, and neither are the
  rows earlier records already saved when a later record fails.
- The top-materials GET query (`order_by('-total_cost_value')[:limit]`) and its
  response: only the limit clamp is modelled.
- MaterialsApi.LookupKey: a list, object or date id makes the lookup raise,
  which the model reports as a server error without its message. The not-found
  error carries the key, not the formatted message.
- Serializers: DRF's own field validation (types, required fields, `EmailField`
  syntax, read-only fields) happens before the methods modelled here. The
  models therefore take dates as dates, `amount_paid` as a number, and both
  password fields as present.
- The user-account side effects of `create_user` and `make_random_password` in
  `UserRegistrationSerializer.create` and `WorkerSerializer.create`, and
  `WorkerSerializer.create` itself.
- Serializers.InvoiceValidate: `amount_paid` is a read-only field of the
  serializer (construction/serializers.py:276), so request data never reaches
  this check. It is modelled as written.
- Model-field validators (`MinValueValidator`, `MaxValueValidator`) are not run
  by `save()`. They appear only as hypotheses of the lemmas that need them.
- A payment saved a second time (an update) re-runs the same recomputation. The
  ledger models only the creation of payments.
- Customer, worker, estimate and material rows are values passed to the
  dashboard and validators. Their own CRUD is not modelled.
