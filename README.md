# Debt rate calculator: a Dafny model

The calculator is a single React page, `debt-rate-calculator.tsx`. It takes a loan form and works out four things:

- the true annual cost of the loan (APR), from the amount borrowed, the amount actually paid out, the instalment and the number and frequency of instalments;
- a simple or compound annual rate;
- a numbered explanation of every derivation step;
- a warning when the APR exceeds the interest ceilings of three Taiwanese statutes.

These ceilings are Pawnshop Act art. 11 (30%), Civil Code art. 205 (16%) and Banking Act art. 47-1 (15%).

The page can also fill in the number of instalments from the loan's start date. It also keeps a list of saved debt records: a record can be added, edited or deleted.

The model covers that arithmetic and that list:

- `Loan` (`loan.dfy`):
  - the parsed form;
  - the periods per year of each frequency;
  - the reference definitions of every derived quantity: totals by payment type, the grace-period override, fees, cost, term, APR and the two rates.
- `Legal` (`legal.dfy`): the statute ceilings, a declarative classification and the source's threshold chain as the method `Classify`.
- `Trace` (`trace.dfy`):
  - the explanation lines, each carrying the values it interpolates;
  - their numbering;
  - what it means for a line's displayed equation to be true.
- `Calculator` (`calculator.dfy`): `calculateAPR` as the method `CalculateApr`, proved equal to the reference result `Expected`, with lemmas about that result.
  - The method keeps the source's mutable totals and the explanation it appends to.
  - Its payment-type switch, grace-period block and rate block are the methods `PaymentTypeTotals`, `ApplyGracePeriod` and `AnnualRates`. These are called in the source's order.
- `Periods` (`periods.dfy`): `calculatePeriodsFromStartDate` as a method with the source's switch, proved equal to the reference count `PeriodCount`.
- `Records` (`records.dfy`): the saved-record list operations as functions on sequences.
- `Wrappers` (`wrappers.dfy`): `Option`, standing for the absent result (`null`) and a missing start date.

Amounts are exact `real`s and period counts are `int`s. `Math.pow` is the parameter `pow`: only where it is applied, and to what, is modelled.

For interest-only loans the program disagrees with itself. The explanation's fourth line (line 124) reads "total payment = total interest + loan amount" (總利息 + 借款總金額). The code (line 119) adds the amount actually received instead. The model computes what the code computes. `InterestOnlyTraceGap` and `TraceConsistency` record what this does to the explanation's fourth line.

## Model

| member | source | states |
|---|---|---|
| Loan.PeriodsPerYear | debt-rate-calculator.tsx:50-56 | every frequency has between 1 and 365 periods a year |
| Loan.PeriodsPerYearDistinct | debt-rate-calculator.tsx:50-56 | the five frequencies have distinct period counts, 365 > 52 > 26 > 12 > 1 |
| Loan.Years | debt-rate-calculator.tsx:100-101 | the term in years is positive whenever there is at least one period |
| Loan.TotalsWithoutGrace | debt-rate-calculator.tsx:109-134 | without the override, principal-and-interest and principal-only give the same totals (payment = instalment × periods, interest = payment − loan); interest-only gives interest = instalment × periods and payment = interest + amount received |
| Loan.GraceOverride | debt-rate-calculator.tsx:141-157 | the override sets payment = instalment × grace periods + regular repayment and interest = payment − loan, and the fees are the same as without the override; for principal-and-interest the payment equals instalment × all periods, otherwise loan + instalment × all periods; the regular period count is negative exactly when the grace count exceeds the total |
| Loan.CostYearsAndRates | debt-rate-calculator.tsx:160-195 | cost = interest + fees; years > 0; APR × received × years = cost × 100; a simple loan's simple rate equals the APR and its compound rate is 0; a compound loan's simple rate is 0 and its compound rate is (pow(growth, 1/years) − 1) × 100 |
| Loan.TotalCostScales | debt-rate-calculator.tsx:109-160 | multiplying every amount by k multiplies the total cost by k |
| Loan.AprScaleInvariant | debt-rate-calculator.tsx:164-166 | multiplying every amount by the same positive k keeps a result computable and leaves the APR unchanged |
| Loan.AprSign | debt-rate-calculator.tsx:164-166 | the APR is positive, or zero, exactly when the total cost is |
| Legal.Exceeded | debt-rate-calculator.tsx:202-217 | a statute is in the list exactly when it is in the input and the APR is strictly above its ceiling |
| Legal.ViolatedLawsByBand | debt-rate-calculator.tsx:202-217 | above 30: all three statutes; (16, 30]: Civil Code and Banking Act; (15, 16]: Banking Act; at most 15: none |
| Legal.Classify | debt-rate-calculator.tsx:197-217 | the threshold chain with its inner push gives the reference classification: critical iff APR > 30, high iff 16 < APR ≤ 30, medium iff 15 < APR ≤ 16, and no level, no message and no statute iff APR ≤ 15 |
| Legal.ClassificationMonotone | debt-rate-calculator.tsx:202-217 | a higher APR breaches every statute a lower one breaches, and at least as many |
| Trace.KindsOfNumbered | debt-rate-calculator.tsx:104-195 | dropping the numbers from numbered lines gives back the lines in their order |
| Trace.NumberedSplit | debt-rate-calculator.tsx:161-192 | numbering a continuation carries on from where the first part stopped, as `nextStep` does |
| Calculator.PaymentTypeTotals | debt-rate-calculator.tsx:109-134 | the switch produces the reference totals by payment type and appends explanation lines 3 and 4 |
| Calculator.ApplyGracePeriod | debt-rate-calculator.tsx:141-157 | when the grace period is active the totals become the override's and lines 6 to 9 are appended; otherwise totals and explanation are unchanged |
| Calculator.AnnualRates | debt-rate-calculator.tsx:178-195 | the simple and compound rates equal their reference values, and the closing line is numbered `nextStep + 4` (none for a compound loan whose term is not positive) |
| Calculator.CalculateApr | debt-rate-calculator.tsx:82-237 | a result exists iff loan, amount received, instalment and period count are all positive; when it does, every field and the whole explanation equal the reference result |
| Calculator.TraceShape | debt-rate-calculator.tsx:97-195 | the explanation has 10 lines, or 14 with the grace override, numbered 1, 2, 3, … without gaps, in the order basics, frequency, two payment-type lines, fees, [four grace lines], cost, years, average annual cost, APR, rate |
| Calculator.TraceConsistency | debt-rate-calculator.tsx:104-195 | every equation the explanation displays is true, except exactly when the loan is interest-only and the amount received differs from the loan |
| Calculator.InterestOnlyTraceGap | debt-rate-calculator.tsx:118-124 | for interest-only loans line 4 shows interest, loan amount and a payment computed with the amount received; it matches "interest + loan amount" only when both amounts are equal |
| Calculator.InactiveGraceIgnored | debt-rate-calculator.tsx:141-161 | when the grace period is not active, the result does not depend on the grace fields: a missing or non-positive count never causes an absent result, it only disables the override |
| Calculator.WorkedExample | debt-rate-calculator.tsx:82-237 | a 100 000 loan with 95 000 received and twelve monthly payments of 10 000: payment 120 000, interest 20 000, fees 5 000, cost 25 000, one year, APR 500/19 (about 26.32%), level high, Civil Code and Banking Act breached |
| Calculator.ClassificationScaleInvariant | debt-rate-calculator.tsx:164-217 | scaling every amount by a positive factor leaves the APR, the warning level and the breached statutes unchanged |
| Periods.Elapsed | debt-rate-calculator.tsx:356 | the elapsed time is the absolute difference of the two instants |
| Periods.WholePeriods | debt-rate-calculator.tsx:361-369 | the count is the number k with k × width ≤ elapsed < (k + 1) × width |
| Periods.PeriodsFromStartDate | debt-rate-calculator.tsx:349-380 | no count without a start date; otherwise whole elapsed days, weeks or fortnights (never negative), the difference in months (year × 12 + month), or the difference in years |
| Periods.WeeksFromDays | debt-rate-calculator.tsx:361-369 | whole weeks are whole days divided by 7, and whole fortnights are whole weeks divided by 2 |
| Periods.SwappedDates | debt-rate-calculator.tsx:356-376 | swapping the dates keeps the day, week and fortnight counts and negates the month and year counts; the month count is negative exactly when the start is in a later month than today |
| Periods.MonthsWithinYears | debt-rate-calculator.tsx:370-376 | with months 0 to 11, the month count lies within 11 of twelve times the year count, and is non-negative exactly when the year count is positive or the years agree and today's month is not earlier |
| Records.NewRecord | debt-rate-calculator.tsx:267-274 | the new record has the given id and save form, the result's APR, warning level and statutes, the given time of calculation and no update time |
| Records.SaveCalculation | debt-rate-calculator.tsx:265-276 | saving a computed result appends one record whose APR, level and statutes are that loan's APR and its classification, after the unchanged earlier records |
| Records.Save | debt-rate-calculator.tsx:265-276 | saving appends exactly one record at the end and leaves the earlier records unchanged |
| Records.UpdateById | debt-rate-calculator.tsx:311-320 | updating keeps the length and every id; records with another id are unchanged; records with the edited id get the form's fields and the update time, keeping their APR, time of calculation, level and statutes |
| Records.WithoutId | debt-rate-calculator.tsx:343 | a record remains exactly when it was present and its id differs, as many times as it occurred |
| Records.Delete | debt-rate-calculator.tsx:341-346 | without confirmation nothing changes; with it, exactly the records with another id remain, each as many times as before |
| Records.EditFormOf | debt-rate-calculator.tsx:294-309 | the edit form holds the record's own nine other fields; its status is the record's when non-empty, otherwise `principal_interest` |
| Records.WithoutIdConcat | debt-rate-calculator.tsx:343 | deleting from a concatenation deletes from each part, so the remaining records keep their order |
| Records.WithoutAbsentId | debt-rate-calculator.tsx:343 | deleting an id no record carries leaves the list as it was |
| Records.DeleteIdempotent | debt-rate-calculator.tsx:341-346 | deleting the same id twice is deleting it once |
| Records.DeleteAfterSave | debt-rate-calculator.tsx:265-346 | deleting the record just saved under a fresh id restores the list |
| Records.DeleteUpdateCommute | debt-rate-calculator.tsx:311-346 | editing one id and deleting another (or the same) give the same list in either order |
| Records.EditRoundTrip | debt-rate-calculator.tsx:294-320 | for a record with a non-empty status, when every record with that id holds the same form, opening the edit form on it and saving it unchanged only stamps the update time on the records with that id |

## Left out

- Rendering, tooltips, dialogs, `alert`, React state and the `useEffect` that recomputes on every form change are not modelled. They are UI plumbing. The `confirm` dialog of a deletion is the parameter `confirmed`.
- Parsing of the text fields (`parseFloat(..) || 0`, `parseInt(..) || 0`) is not modelled: the inputs arrive already parsed, so an unparsable field is the number 0.
- `Date.now()` ids, `new Date()` and `toLocaleString` timestamps are parameters, because they read the clock. The start date is an already parsed `Instant`; an unparsable date (NaN) is not modelled.
- `Math.pow` is the uninterpreted parameter `pow`, because it is a floating-point power with a fractional exponent.
- Arithmetic is over exact reals, not IEEE-754 doubles: rounding, NaN and infinities are not modelled.
- `toFixed` rounding of the result fields is not modelled, nor the Chinese text of the explanation lines and warnings. A line is modelled by its kind, its number and the values it shows, and a warning by the statute it names.
- Records.NewRecord: the saved APR is the unrounded real, while the page stores the `toFixed(2)` string.
- The constant `impliedFees: 0` of the result is not modelled.
- The monthly-rate display `apr / 12` is not modelled, because it is presentation only.
- The save form is reset to blank fields (status `principal_interest`) after saving or updating, and the record being edited is cleared. These assignments to page state are not modelled.
- The interest-only total payment: the model follows the code at line 119 (instalment × periods + amount received), not the explanation text at line 124, which says loan amount.
