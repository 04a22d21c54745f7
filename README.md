# Loyalty ledger — a Dafny model

This project models the core of a point-of-sale loyalty dashboard: the ledger of
customers with their points balances, total spend, purchase history and two tiers (one by
spending, one by points); the SMS log; and the settings that hold the tier thresholds and
the per-tier discount percents.

The model covers:

- **Tier classification.** A cascade of `>=` tests, Platinum first, with Bronze as the
  fallback. The effective tier is the higher-ranked of a customer's two tiers.
- **Settlement** of one sale (`handleTransaction`):
  - A new mobile number is charged the full bill. The change, rounded down, becomes
    the opening balance.
  - A known number may redeem points. Its tier discount is granted only when a positive
    number of points is requested (`pointsToRedeem > 0`), whether or not any is redeemed,
    and the redemption is capped three ways. The net point change is floored,
    a history entry is appended and both tiers are recomputed.
  - A short tender rejects the sale, and nothing changes.
- **The dashboard state** as a class `Dashboard.Ledger`. It holds the customer list, the
  SMS log and the settings. Its settlement method updates the copied record field by
  field and writes it back, as the source does. The persist-time tier recompute, the
  overview and analytics figures, and the CSV export are members of the same class.
- **The cashier's form**:
  - the figures it previews;
  - the PIN gate that opens the billing fields;
  - the submit gate.
- **The settings form**:
  - numbers shown as text: `String(n)`;
  - text read back with `parseInt(text, 10) || 0`;
  - the digits-only filter on edits.
- **The analytics pie chart's spend buckets.**

Modules, one per file:

- `Types` (types.dfy): the records.
- `Tiers` (tiers.dfy): the classifier, the defaults, the effective tier and the discount percent.
- `Pricing` (pricing.dfy): the settlement arithmetic of a repeat purchase.
- `Numerals` (numerals.dfy): `String(n)` and `parseInt`.
- `Settlement` (settlement.dfy): the settlement as a function on the customer list, with its invariants.
- `Reports` (reports.dfy): the tier recompute, the totals, the analytics metrics and the CSV text.
- `Dashboard` (dashboard.dfy): the `Ledger` class.
- `TransactionForm` (transaction_form.dfy): the cashier's form.
- `SettingsForm` (settings_form.dfy): the settings form.
- `Charts` (charts.dfy): the pie-chart bucketing.

These choices of representation apply throughout:

- Amounts are exact `real`s; floating-point rounding is not modelled.
- Points are `int`s obtained with `.Floor`, as `Math.floor` does.
- Settings entries are `int`s, as `parseInt` and the defaults produce them.
- Timestamps are an opaque `int` passed in by the caller.
- An SMS text is kept as the values it is built from (`Notice`).

### What the code does not check

- Amounts are not validated for sign. The form blocks an empty amount field, because
  `isFormReady` (components/Dashboard.tsx:448) requires both amount texts to be non-empty.
  Non-numeric text in the number inputs (components/Dashboard.tsx:529-530) reads as empty
  and is blocked the same way. A negative bill passes the form and is settled as typed
  (`TransactionForm.NegativeBillSettled`). A negative tender is always blocked as a short
  tender, because the previewed final bill is clamped at 0 (components/Dashboard.tsx:444;
  `TransactionForm.NegativeTenderBlocked`). The model accepts any real amounts. Where a property needs a non-negative bill
  or balance, that is a hypothesis of the lemma rather than a precondition of the operation.
- Threshold tables are not checked for order when settings are loaded or saved, so the
  classifier is proved for arbitrary tables.
- Mobile numbers are not checked for uniqueness on load. `Settlement.SettlePreservesWellFormed`
  proves that settlement keeps them unique if they were unique before.

## Model

| member | source | states |
|---|---|---|
| Tiers.DefaultSettings | components/Dashboard.tsx:102-106 | the default thresholds and discount percents, entry by entry |
| Tiers.DefaultSettingsDescend | components/Dashboard.tsx:102-106 | in each default table the entries do not increase from Platinum down to Bronze, Bronze is 0, and every discount percent lies between 0 and 100 |
| Tiers.Rank | components/Dashboard.tsx:266 | the rank of a tier is between 0 and 3 (Bronze 0 … Platinum 3) |
| Tiers.TierOfRank | components/Dashboard.tsx:267 | the tier listed at a rank has that rank, so it inverts `Rank` |
| Tiers.RankInjective | components/Dashboard.tsx:266-267 | distinct tiers have distinct ranks |
| Tiers.CalculateTier | components/Dashboard.tsx:108-113 | the result is the highest non-Bronze tier whose threshold the value meets: its threshold is met, and no higher-ranked non-Bronze tier's threshold is met |
| Tiers.CalculateTierMonotone | components/Dashboard.tsx:108-113 | for any threshold table, a larger value never yields a lower-ranked tier |
| Tiers.CalculateTierIgnoresBronze | components/Dashboard.tsx:108-113 | changing the Bronze threshold never changes the result |
| Tiers.DefaultNegativeIsBronze | components/Dashboard.tsx:102-113 | with the default spending and points tables, every negative value is Bronze |
| Tiers.EffectiveTier | components/Dashboard.tsx:266-270 | the effective tier ranks at least as high as both stored tiers and is one of them |
| Tiers.EffectiveTierIsLeastUpperBound | components/Dashboard.tsx:266-270 | every tier ranked at or above both stored tiers ranks at or above the effective tier |
| Tiers.DiscountPercent | components/Dashboard.tsx:271 | the percent is the table's entry for the tier; the falsy fallback to 0 maps 0 to 0 |
| Tiers.GoldBeatsSilverByDefault | components/Dashboard.tsx:102-106 | with the defaults, a customer Gold by spending and Silver by points gets 10% |
| Pricing.Min3 | components/Dashboard.tsx:278 | the minimum is at most each argument and equals one of them |
| Pricing.QuoteFor | components/Dashboard.tsx:273-281 | the tier discount applies only when a positive number of points is requested (`pointsToRedeem > 0`), whether or not any is redeemed; the redemption is at most the balance, the request and what is owed after the tier discount, and equals one of them; the final bill is non-negative; final bill plus total discount is the original bill |
| Pricing.NoRedemptionChargesFullBill | components/Dashboard.tsx:273-281 | with no redemption request, a non-negative balance and a non-negative bill, nothing is redeemed and the final bill is the bill |
| Pricing.NetPointsChange | components/Dashboard.tsx:285-286 | the net change is the largest integer not above tender minus final bill minus redemption |
| Pricing.BalanceStaysNonNegative | components/Dashboard.tsx:278-296 | a non-negative balance stays non-negative after an accepted purchase |
| Pricing.PlatinumExample | components/Dashboard.tsx:266-286 | a worked Platinum sale: 3750 tier discount, 7500 redeemed, 13750 charged, net change -7250 |
| Numerals.NatToString | components/SettingsPage.tsx:52 | `String(n)` of a natural number is a non-empty digit string with value n and no leading zero |
| Numerals.IntToString | components/SettingsPage.tsx:52 | `String(n)` is non-empty, and is all digits exactly when n is non-negative |
| Numerals.TrimStart | components/SettingsPage.tsx:58 | `parseInt` skips exactly the leading white space: what it drops is white space and what remains does not start with it |
| Numerals.DigitPrefix | components/SettingsPage.tsx:58 | the longest digit prefix: all digits, a prefix, and followed by a non-digit when shorter than the input |
| Numerals.DigitIsNotWhiteSpace | components/SettingsPage.tsx:58 | no digit is white space to `parseInt` |
| Numerals.TrimStartNoOp | components/SettingsPage.tsx:58 | text that does not begin with white space is not trimmed |
| Numerals.DigitsAreWhole | components/SettingsPage.tsx:58 | a non-empty digit string is neither trimmed nor cut short |
| Numerals.ParseInt | components/SettingsPage.tsx:58 | `parseInt(text, 10)`: the empty text is NaN, and a non-empty digit string reads as its decimal value |
| Numerals.ParseTier | components/SettingsPage.tsx:58 | `parseInt(text, 10) \|\| 0`: NaN becomes 0, any parsed integer is kept |
| Numerals.ParseTierEmpty | components/SettingsPage.tsx:58 | `parseTier("")` is 0, since NaN is falsy |
| Numerals.ParseTierOfDigits | components/SettingsPage.tsx:58 | `parseTier` of a digit string is its decimal value, hence non-negative |
| Numerals.LeadingZeroIgnored | components/SettingsPage.tsx:58 | a leading zero does not change a digit string's value |
| Numerals.ParseTierLeadingZero | components/SettingsPage.tsx:58 | `parseTier` ignores a leading zero on a digit string |
| Numerals.ParseTierOfIntToString | components/SettingsPage.tsx:51-64 | reading back `String(n)` with `parseTier` gives n, for every integer n |
| Settlement.FindIndex | components/Dashboard.tsx:241 | `findIndex`: the first position with that mobile number, or -1 exactly when there is none |
| Settlement.Settle | components/Dashboard.tsx:234-313 | rejection happens exactly when a new customer's tender is below the bill or an existing customer's is below the final bill. A new customer is appended with `floor(given - bill) >= 0` points, the whole bill as spend, one earn entry, tiers from the new totals and a welcome SMS. An existing customer is updated in place: others keep position and contents; one entry is appended, with the final bill, the floored net change, earn iff that change is >= 0, and bill + discount = original bill; points and spend move by the entry; tiers are recomputed; a receipt SMS is sent |
| Settlement.SettlePreservesWellFormed | components/Dashboard.tsx:243-301 | settlement keeps mobile numbers unique and every balance non-negative |
| Settlement.SettleExistingKeepsPosition | components/Dashboard.tsx:263-307 | after a repeat sale, the customer is still found at the same position |
| Reports.RecomputeTiers | components/Dashboard.tsx:195-200 | every customer keeps all fields but the tiers, and both tiers are current for the settings |
| Reports.RecomputeCurrentIsIdentity | components/Dashboard.tsx:195-200 | recomputing a list whose tiers are already current changes nothing |
| Reports.RecomputeIdempotent | components/Dashboard.tsx:195-200 | recomputing twice is recomputing once |
| Reports.SettleKeepsTiersCurrent | components/Dashboard.tsx:243-301 | if every tier is current before an accepted settlement, every tier is current after it |
| Reports.TotalRevenue | components/Dashboard.tsx:210 | the revenue reduction: never negative when no total spend is |
| Reports.TotalPoints | components/Dashboard.tsx:211 | the points reduction: never negative when no balance is |
| Reports.TotalTxns | components/Dashboard.tsx:215 | the transaction reduction: zero exactly when every history is empty |
| Reports.ComputeStats | components/Dashboard.tsx:208-212 | `stats`: the customer count, the revenue and the points reductions; the points total is non-negative when every balance is |
| Reports.TotalsOfUpdate | components/Dashboard.tsx:208-216 | replacing one record moves revenue, points and transaction count by the difference of the two records |
| Reports.SettleMovesTotals | components/Dashboard.tsx:208-216 | an accepted sale adds the amount charged to revenue, the entry's point change to total points and one to the transaction count; the customer count grows only for a new customer |
| Reports.Round | components/Dashboard.tsx:217 | `Math.round`: the nearest integer, halves rounded up |
| Reports.InsertBySpend | components/Dashboard.tsx:219 | inserting into a list sorted by descending spend keeps it sorted and adds exactly that customer |
| Reports.SortBySpend | components/Dashboard.tsx:219 | the result is sorted by descending spend and is a permutation of the input; customers who spent the same stay in list order, as the stable library sort keeps them |
| Reports.TopCustomers | components/Dashboard.tsx:219 | at most five customers, sorted by descending spend, drawn from the list; everyone left out spent no more than anyone listed; among customers who spent the same, those listed are the first ones in list order |
| Reports.WithSpendAppend | components/Dashboard.tsx:219 | the customers of a given spend in a concatenation are those of each part, in order |
| Reports.WithSpendNone | components/Dashboard.tsx:219 | a list in which everyone spent less than v has no customer of spend v |
| Reports.InsertBySpendStableAt | components/Dashboard.tsx:219 | insertion puts the new customer after every earlier customer of the same spend |
| Reports.InsertBySpendStable | components/Dashboard.tsx:219 | the same, for every spend value at once |
| Reports.AnalyticsMetrics | components/Dashboard.tsx:214-221 | the transaction count is the total history length; the average order value is 0 with no transactions, otherwise revenue over transactions rounded to nearest; the top customers are `TopCustomers` |
| Reports.CsvFields | components/Dashboard.tsx:318 | the six fields of a row in the header's column order: name, mobile, spend text, points, spending tier, points tier |
| Reports.CsvRows | components/Dashboard.tsx:317-319 | the rows, one per customer in list order; there are at least as many characters as customers, and a non-empty list's rows end with a line break |
| Reports.CsvRowsStep | components/Dashboard.tsx:317-319 | each step of the export appends the next customer's row |
| Reports.BuildCsv | components/Dashboard.tsx:316-319 | the text built line by line is the header followed by one row per customer, in list order |
| Reports.CountNewlinesAppend | components/Dashboard.tsx:316-319 | line breaks of a concatenation add up |
| Reports.JoinFieldsNoNewline | components/Dashboard.tsx:318 | fields without line breaks join into a text without line breaks |
| Reports.CsvLineIsOneLine | components/Dashboard.tsx:318 | such fields make exactly one line |
| Reports.IntToStringNoNewline | components/Dashboard.tsx:318 | the text of the points has no line break |
| Reports.TierNameNoNewline | components/Dashboard.tsx:318 | the name of a tier has no line break |
| Reports.SixFields | components/Dashboard.tsx:318 | six fields without line breaks make one line |
| Reports.HeaderIsOneLine | components/Dashboard.tsx:316 | the header is one line |
| Reports.RowsLines | components/Dashboard.tsx:317-319 | without line breaks in names, mobile numbers and amounts, the rows have exactly one line per customer |
| Reports.CsvLineCount | components/Dashboard.tsx:316-319 | under the same condition, the export has one line more than there are customers |
| Dashboard.Ledger.constructor | components/Dashboard.tsx:177-193 | the state is what was loaded |
| Dashboard.Ledger.LogSms | components/Dashboard.tsx:223-232 | the new entry, marked sent, is put before the old log |
| Dashboard.Ledger.HandleTransaction | components/Dashboard.tsx:234-313 | success exactly when `Settle` accepts. On rejection, list and log are unchanged. On acceptance, the list is the settled list and one SMS is prepended. Settings never change. Unique mobiles, non-negative balances and current tiers are preserved |
| Dashboard.Ledger.SettleNewCustomer | components/Dashboard.tsx:243-261 | the new-customer branch performs `Settle` for an unknown mobile number |
| Dashboard.Ledger.SettleExistingCustomer | components/Dashboard.tsx:263-310 | the in-place branch, copying the record, updating its fields one by one and writing it back, performs `Settle` for a known number |
| Dashboard.Ledger.SaveSettings | components/Dashboard.tsx:390 | the saved settings replace the old ones |
| Dashboard.Ledger.Persisted | components/Dashboard.tsx:195-202 | what is written has one record per customer, at the same position, identical but for its tiers, and both tiers are current |
| Dashboard.Ledger.Overview | components/Dashboard.tsx:208-212 | the customer count, revenue and outstanding points of the current list |
| Dashboard.Ledger.Analytics | components/Dashboard.tsx:214-221 | for the current list: the transaction count; an average order value of 0 with no transactions and otherwise revenue over transactions rounded to nearest; the top five spenders |
| Dashboard.Ledger.Export | components/Dashboard.tsx:316-319 | the exported text is the header and one row per current customer |
| Dashboard.KeepsInvariants | components/Dashboard.tsx:234-313 | an accepted settlement keeps the ledger invariants |
| Dashboard.SettleThenPersist | components/Dashboard.tsx:195-206 | with current tiers, what is stored after a sale is exactly the settled list |
| TransactionForm.Lookup | components/Dashboard.tsx:413 | `customers.find`: none exactly when no record has the number, otherwise the first one |
| TransactionForm.PreviewFor | components/Dashboard.tsx:415-446 | a new customer is Bronze with 0%, an existing one gets the effective tier's percent. The tier discount is shown iff "use points" is ticked. The points to redeem are the smaller of the balance and what remains after the tier discount, or 0. The final bill is `max(0, bill - discount)`. The points earned are the floor of the non-negative change |
| TransactionForm.DetailsOf | components/Dashboard.tsx:496-500 | the form sends the two amounts as typed and the previewed points to redeem |
| TransactionForm.CorrectedFinalBill | components/Dashboard.tsx:273-281 | the correction of the Finding below, which the source does not compute: the final bill to show is what settlement charges for the details the form sends |
| TransactionForm.IsFormReady | components/Dashboard.tsx:448 | `isFormReady`: the form is ready only with both amount fields filled in and a tender covering the final bill |
| TransactionForm.SubmitAgainst | components/Dashboard.tsx:488-500 | for a given final bill, a submission goes through exactly when the form is ready, with the form's details; a short tender is reported when the tender is below the final bill, and missing fields otherwise |
| TransactionForm.Submit | components/Dashboard.tsx:488-500 | `handleSubmit` as written: the same gate against the previewed final bill of line 444 |
| TransactionForm.CorrectedSubmit | components/Dashboard.tsx:488-500 | the corrected submit of the Finding below: the same gate against the corrected final bill |
| TransactionForm.NegativeTenderBlocked | components/Dashboard.tsx:444-448 | a negative tender is always blocked as a short tender against the previewed final bill |
| TransactionForm.NegativeBillSettled | components/Dashboard.tsx:444-448 | a negative bill from a new customer passes the form and is settled as typed: negative spend, the change as points |
| TransactionForm.HandleSubmit | components/Dashboard.tsx:488-509 | `handleSubmit` to its end: a blocked form shows its error; an accepted sale resets the form (`resetForm`, 450-453); a rejected one shows the failure message, which happens exactly when the form submits and settlement rejects |
| TransactionForm.FailureOnlyWhereGatesDisagree | components/Dashboard.tsx:503-508 | the failure message appears only where `Submit` lets a sale through that `CorrectedSubmit` would have blocked |
| TransactionForm.PinNotRecheckedOnSubmit | components/Dashboard.tsx:455-486 | a counterexample: a PIN typed for an unknown number opens billing; after the number is changed to a known customer's, `Submit` submits, settlement redeems that customer's points although the PIN differs, and `PinCheckedSubmit` blocks it |
| TransactionForm.PinCheckedSubmit | components/Dashboard.tsx:488-500 | the corrected submit of the second Finding: a known customer's PIN must match at submission, otherwise `Submit` decides |
| TransactionForm.PinCheckedSubmitNeedsPin | components/Dashboard.tsx:474-476 | with the PIN checked at submission, a sale to an existing customer goes through only with that customer's PIN |
| TransactionForm.CorrectedSubmitAgreesWithSettle | components/Dashboard.tsx:448 | with the corrected gate, a filled-in form goes through exactly when settlement accepts |
| TransactionForm.CommittedRedemptionIsPreviewed | components/Dashboard.tsx:440 | a positive previewed redemption is redeemed in full by settlement, with the previewed tier discount and final bill |
| TransactionForm.NoPointsPreviewIsCommitted | components/Dashboard.tsx:430-444 | without "use points", a non-negative balance and a non-negative bill, settlement charges the previewed bill |
| TransactionForm.AsWrittenGateAgreesWhenRedeeming | components/Dashboard.tsx:448 | `Submit` as written agrees with settlement when a positive redemption is sent, or none is asked for on a non-negative bill and balance |
| TransactionForm.AsWrittenPreviewUndercharges | components/Dashboard.tsx:430-448 | a counterexample: `Submit` as written shows 95 and submits a tender of 95, settlement rejects the sale and `HandleSubmit` shows the failure message, while `CorrectedSubmit` reports the short tender instead |
| TransactionForm.AsWrittenNegativeRedemptionUndercharges | components/Dashboard.tsx:430-448 | a second counterexample: with a 150% Silver discount and a balance of 10, the form sends a redemption of -50, shows 0 and submits a tender of 0, while settlement grants no tier discount, charges 150 and the form shows the failure message |
| TransactionForm.PreviewEarnedIsOpeningBalance | components/Dashboard.tsx:446 | for a new customer, the points shown as earned are the opening balance recorded |
| TransactionForm.Utf16Length | components/Dashboard.tsx:474 | JavaScript's `length`: between one and two code units per character, and one per character when all are in the Basic Multilingual Plane |
| TransactionForm.Utf16LengthExamples | components/Dashboard.tsx:474 | two emoji are four code units long, as is a four-digit PIN |
| TransactionForm.HandlePinChange | components/Dashboard.tsx:472-486 | the billing fields open iff the PIN is four UTF-16 code units long and the customer is new or the PIN matches. A wrong PIN of that length is reported; opening clears the message; other lengths leave it unchanged; no other field changes |
| TransactionForm.HandlePinChangeIdempotent | components/Dashboard.tsx:472-486 | entering the same PIN again changes nothing |
| SettingsForm.TableToStrings | components/SettingsPage.tsx:51-55 | every entry of a table becomes `String(n)` |
| SettingsForm.TableFromStrings | components/SettingsPage.tsx:57-64 | every entry of a table is read with `parseTier` |
| SettingsForm.SettingsToStrings | components/SettingsPage.tsx:51-55 | every field holds the text of its setting |
| SettingsForm.StringsToSettings | components/SettingsPage.tsx:57-64 | every setting is its field read with `parseTier` |
| SettingsForm.StringsToSettingsRoundTrip | components/SettingsPage.tsx:51-64 | showing the settings and saving them untouched gives the same settings, for any integers |
| SettingsForm.HandleTierChange | components/SettingsPage.tsx:72-82 | a value with a non-digit leaves the state unchanged; a digit value replaces exactly the one field it was typed into |
| SettingsForm.NonNegativeSettingsShowDigits | components/SettingsPage.tsx:51-55 | non-negative settings are shown as digit strings |
| SettingsForm.HandleTierChangeKeepsDigits | components/SettingsPage.tsx:72-82 | editing keeps every field a digit string |
| SettingsForm.DigitFormSavesNonNegative | components/SettingsPage.tsx:57-64 | a form of digit strings saves as the decimal values, all non-negative |
| SettingsForm.EditThenSave | components/SettingsPage.tsx:72-82 | an accepted edit followed by a save sets exactly that entry to the value typed and keeps every other entry |
| Charts.BucketOf | components/AnalyticsCharts.tsx:37-39 | high iff spend > 10000, mid iff 2000 < spend <= 10000, low iff spend <= 2000 |
| Charts.CountIn | components/AnalyticsCharts.tsx:35-40 | a bucket holds no more customers than the list |
| Charts.BucketsPartition | components/AnalyticsCharts.tsx:35-40 | high + mid + low is the number of customers |
| Charts.ZeroSpendIsLow | components/AnalyticsCharts.tsx:39 | no spend counts as new |
| Charts.PieChartData | components/AnalyticsCharts.tsx:34-46 | the loop's counters are the bucket counts, the slices are listed VIP, Regular, New, and their values add up to the number of customers |

## Left out

- Browser storage and JSON (components/Dashboard.tsx:177-206): they are I/O. The
  constructor receives the loaded state, and `Persisted` is the list that would be
  written. The seeding with mock customers is a constant and is not modelled.
- The default settings used when nothing is stored are `Tiers.DefaultSettings`. The
  choice between stored and default settings is part of the storage I/O.
- React state-updater semantics: the `success` flag set inside the `setCustomers`
  updater, and a possible double invocation of that updater. This is framework
  behaviour. Settlement is one atomic step that returns `success`.
- The SMS log in the source is prepended from inside the customers updater. The model
  prepends it in the same step as the list change.
- `new Date().toISOString()`: the clock is a parameter (`now`).
- The SMS texts and error messages, built with `toLocaleString` and `toFixed`: locale
  formatting is not modelled. An SMS is kept as its values (`Notice`), and a short-tender
  error carries its two amounts.
- The number-to-text conversion of `totalSpent` in the CSV export: JavaScript's
  `String(number)` for non-integers is a parameter (`amountText`).
- `String(n)` in exponent notation for |n| >= 1e21, and `parseInt` beyond 2^53: outside the
  exact integer model.
- IEEE-754 rounding of all currency arithmetic: amounts are exact reals.
- NaN as the result of `Number(...)` on non-numeric form text. A number input reports
  such text as empty, so an amount field here holds a number or nothing. The preview reads
  nothing as `Number("")`, which is 0, and `isFormReady` blocks it.
- Missing optional fields (`history?`, `discountApplied?`, `|| 0` on undefined totals or
  points): every record here has every field.
- A sign check on amounts: the code has none. A negative bill passes the form and is
  settled as typed, while a negative tender is always blocked as a short tender. The
  lemmas that need a non-negative bill or balance say so.
- The blob, object URL and DOM anchor of the CSV download (components/Dashboard.tsx:320-327):
  browser I/O.
- The Gemini call of the analysis section: a network call to a foreign library.
- `handleMobileBlur` and the mobile field's change handler, focus and timeout handling:
  `Form.billingVisible` and `Form.usePoints` are free inputs of `TransactionForm.Submit`,
  whatever sequence of edits produced them. `TransactionForm.HandlePinChange` is the only
  PIN check. The source does not check the PIN again when the number changes, because
  the change handler (components/Dashboard.tsx:516) sets only the number and the blur
  handler (455-470) closes billing only for fewer than ten characters. See the second
  Finding.
- The mock line-chart data: a constant.
- `parseInt`'s white space is the ECMAScript set of white space and line terminators
  listed in `Numerals.IsJsWhiteSpace`. Other Unicode space separators added in later
  Unicode versions are not included.
- Tiers.DiscountPercent: a table here always has an integer entry for every tier, so the
  `|| 0` fallback for a missing entry cannot be exercised.
- Dashboard.Ledger.SaveSettings: tiers kept in memory are not recomputed when settings
  change, as in the source. Only the persisted list is recomputed.

## Findings

| source | as written | input that shows it | evidently intended | confidence | as-written member | corrected member |
|---|---|---|---|---|---|---|
| components/Dashboard.tsx:430-448 | The preview grants the tier discount whenever "use points" is ticked. Settlement grants it only when the points sent are positive. When the points sent are 0, or negative because the bill after the tier discount is, the preview shows a lower final bill than settlement charges, and the submit gate uses that lower bill | Existing Silver customer (5% by default) with a balance of 0, "use points" ticked, bill 100, tender 95: the form shows 95 and submits, and settlement rejects it because it charges 100. The checkbox is shown only for a balance above 0 (components/Dashboard.tsx:543) and is cleared only by `resetForm` (451), so this state arises when the box was ticked for an earlier customer and the mobile number was then changed. A second input needs no stale checkbox: a Silver discount of 150% (the settings form accepts it), a balance of 10, bill 100, tender 0 and "use points" ticked. The form sends -50 points, shows 0 and submits, and settlement charges 150 (`TransactionForm.AsWrittenNegativeRedemptionUndercharges`) | the previewed final bill is the one settlement charges, so the submit gate lets a sale through exactly when settlement accepts it | not executed | TransactionForm.AsWrittenPreviewUndercharges | TransactionForm.CorrectedSubmitAgreesWithSettle |
| components/Dashboard.tsx:455-486 | The PIN is checked only while it is typed. Changing the mobile number sets only the number (line 516), and the blur handler closes billing only for fewer than ten characters, so billing opened for one number stays open for another. Neither `isFormReady` (448) nor `handleTransaction` checks the PIN | Type an unknown number and PIN 0000, which opens billing for a new customer. Then change the number to that of an existing Silver customer with PIN 1234 and 500 points, tick "use points", and enter bill 100 and tender 0: the form submits, and settlement redeems 95 points, leaving 405 | a sale to an existing customer goes through only with that customer's PIN | not executed | TransactionForm.PinNotRecheckedOnSubmit | TransactionForm.PinCheckedSubmitNeedsPin |
