# Transaction report builders, modelled in Dafny

The repository turns three transaction exports into rows of one 16-column
financial report:

- dynamic-account collections: checkout payments into one-off virtual accounts;
- reserved-account collections: payments into a merchant's persistent virtual
  account, plus internal settlement movements;
- payouts: transfers out to merchants.

Each builder is a single pandas pipeline. It loads the export and converts
epoch seconds to Africa/Lagos time, then filters rows, sorts them (two of the
three builders do), fills missing cells and coerces text columns to numbers.
It then adds static tags, derives charge, partner cost, profit and percentage
charged, classifies the profit as `Loss`, `NLNP` or `Profit`, and projects the
report columns.

The model follows that structure.

- A parsed export row is a datatype with `Option` fields, one field per
  nullable column (`PayoutRecord`, for example). A report row is
  `Common.ReportRow`, in the export's column order.
- Row filters, the sort and the final projection are expression stages:
  `Frame.Filter`, `Frame.SortBy` and `Frame.Map`.
- The in-place column assignments after loading (`df[col] = ...`,
  `fillna(inplace=True)`, the masked `loc` writes of `gain_status`) are
  applications of `Frame.Assign` to an array of working rows, in the source's
  order. A call usually stands for one assignment. The static tags are one
  call, which stands for the three (reserved, dynamic) or four (payout)
  constant-column assignments. The `created_at` and `transaction_date`
  assignments made while loading are folded into each builder's `Load`.
- Each builder has a reference definition of its report row, such as
  `ReservedRow`, written directly from the column formulas. A `StagedRow`
  lemma proves that the staged, in-place version computes exactly that row.
  On the reserved report this confirms that the payment rail is decided on
  the primary reference before the fallback fills it in.
- Each builder method is proved against the reference row. Its report is a
  rearrangement (reserved, dynamic) or the exact image in input order
  (payout) of the reference rows of the rows its filters keep. Its length is
  the number of kept rows, and sorted builders return rows in `created_at`
  order.
- Amounts are exact reals. `round(x, d)` is `Decimal.Round`, which matches
  pandas `Series.round`: it scales by 10^d, rounds half to even and scales
  back. It is used at the precisions of the source: 2 and 1 decimals in the
  reserved report, 2 and 3 in the dynamic report, 1 in the payout report.
- Coercion: `pd.to_numeric(errors="coerce")` is `Coerce.ParseInt` and
  `Coerce.ParseNumber`, which turn text that is not a number into a missing
  value.
- `partner_charge` from the `utils` module is a parameter
  `partnerCharge: real -> real`. The `utils` module is not part of this
  model. No property of the function on numbers is assumed. Applying it to a
  missing reserved amount is taken to give a missing cost (see "Left out").
- Time: Africa/Lagos is UTC+1 with no daylight saving. `created_at` is epoch
  plus 3600 seconds, and `transaction_date` is that value divided by 86400
  (floor), i.e. the local day number.

Three consequences of the code are worth stating.

- `sort_values` (Reserved_Account_Collections.py:69,
  Dynamic_Account_Collections.py:65) uses its default algorithm, quicksort,
  which is not stable. The model therefore promises only a sorted
  rearrangement.
- The docstring of the reserved builder lists the labels Profit, Loss and
  NLNP (Reserved_Account_Collections.py:14). The code first sets
  `gain_status` to `""` (line 112), and no label is written where profit is
  missing, for example when `amount_settled` is missing. The model keeps
  that `""`.
- `fillna(0.00)` (Dynamic_Account_Collections.py:87) fills every missing cell
  of the working subset, the text columns included. In the model, a filled
  text cell reads `"0.0"` (`DynamicAccount.FilledText`).

## Model

| member | source | states |
|---|---|---|
| ReservedAccount.ReservedAccountCollections | Reserved_Account_Collections.py:64-137 | The report has one row per input row that has both `userId` and `reference` and is not one where both are `""`. There is no currency or status filter. The rows are exactly the reference rows of those inputs, rearranged, with `created_at` non-decreasing. Every report row comes from a surviving input row. |
| ReservedAccount.ReservedRow | Reserved_Account_Collections.py:72-115 | The reference report row. charge = round(amount − amount_settled, 2). pct_charged = round(charge·100/amount, 1). partner_cost = partner_charge(amount). profit = round(charge − partner_cost, 2). Charge, pct_charged and profit are missing when either amount is missing, partner_cost when `amount` is missing, and pct_charged also when the amount is 0. The reference is the primary one, else `reference`. The rail is Settlement exactly for a missing primary reference with an integer user id. `gain_status` is the sign classification of profit. |
| ReservedAccount.Enrich | Reserved_Account_Collections.py:71-137 | The column assignments, applied in place in the source's order followed by the projection, give every row its reference report row. |
| ReservedAccount.StagedRow | Reserved_Account_Collections.py:72-115 | The stages in source order give the reference row. In particular, the rail is chosen on the primary reference before the fallback fill, and the staged blank/Loss/NLNP/Profit overwrites give the sign classification. |
| ReservedAccount.ReportSorted | Reserved_Account_Collections.py:69 | Sorting by epoch time gives a report whose Lagos `created_at` is non-decreasing. |
| ReservedAccount.ReservedRowFacts | Reserved_Account_Collections.py:65-95 | For a row that survives the clean-up: `transaction_reference` is never missing; it is the primary reference when present and the secondary one otherwise. The rail is `Settlement` exactly when the primary reference is missing and the user id is integer text, and `Reserved_Account` otherwise. `merchantId` is missing exactly when the user id is not integer text. The row keeps the three static tags TRANSFER/Reserved/Collection. |
| ReservedAccount.ReservedAmounts | Reserved_Account_Collections.py:76-98 | If either amount is missing, charge, pct_charged and profit are missing; if `amount` is missing, partner cost is missing too. Otherwise charge is within 0.005 of amount − settled, and partner cost is partner_charge(amount). Profit is within 0.005 of charge − partner cost. pct_charged is present exactly when the amount is not zero, and then it is within 0.05 of charge·100/amount. |
| ReservedAccount.ReservedGain | Reserved_Account_Collections.py:76-115 | `gain_status` is blank exactly when `amount` or `amount_settled` is missing. Otherwise it is Profit, NLNP or Loss exactly when the margin round(amount − settled, 2) − partner_charge(amount) is above 0.005, within ±0.005, or below −0.005. |
| DynamicAccount.DynamicAccountTransaction | Dynamic_Account_Collections.py:64-140 | The report has one row per input row with currency `NGN` and status `Done`. The rows are exactly the reference rows of those inputs, rearranged, with `created_at` non-decreasing. Every report row comes from such an input. |
| DynamicAccount.DynamicRow | Dynamic_Account_Collections.py:87-120 | The reference report row, after the zero-fill: every missing amount, settled amount and charge is 0.0, a missing user id is 0, and a missing reference or type is `"0.0"`. partner_cost = partner_charge(amount). profit = round(charge − partner_cost, 2). pct_charged = round(charge·100/amount, 3), missing when the amount is 0. `gain_status` is the sign classification of profit. |
| DynamicAccount.FillFrame | Dynamic_Account_Collections.py:67-87 | The NGN rows, cut to the working columns and zero-filled in place, are the filled rows of the input. |
| DynamicAccount.Enrich | Dynamic_Account_Collections.py:92-140 | The in-place assignments after the status filter, with the projection, give every row its enriched report row. |
| DynamicAccount.StagedRow | Dynamic_Account_Collections.py:87-120 | The zero-fill followed by the tags, partner cost, profit, percentage and staged gain overwrites gives the reference row. |
| DynamicAccount.StagedReport | Dynamic_Account_Collections.py:68-90 | Filtering on `Done` after the zero-fill selects exactly the NGN rows whose original status is `Done`, so a missing status never passes. The enriched result is the reference row of each of them, in order. |
| DynamicAccount.ReportSorted | Dynamic_Account_Collections.py:65 | Sorting by epoch time gives a report whose `created_at` is non-decreasing. |
| DynamicAccount.DynamicRowFacts | Dynamic_Account_Collections.py:87-120 | Every reported row has the tags Dynamic/Collection/Checkout_Collection. `merchantId` is taken from `user_id` and `transaction_reference` from `internal_ref`. `type` and `currency` pass through, and `settled_amount`, `charge` and `transaction_amount` pass through. A missing `user_id` becomes merchant 0; a missing amount, settled amount or charge becomes 0.0; a missing reference or type becomes the filled text `"0.0"`. The partner cost is partner_charge of the amount. Profit is always present, so `gain_status` is never blank. |
| DynamicAccount.DynamicGain | Dynamic_Account_Collections.py:108-120 | Profit is within 0.005 of charge − partner cost. `pct_charged` is present exactly when the amount is not zero, and then it is within 0.0005 of charge·100/amount. `gain_status` is Profit, NLNP or Loss exactly when charge − partner cost is above 0.005, within ±0.005, or below −0.005. |
| DynamicAccount.BreakEvenExample | Dynamic_Account_Collections.py:108-120 | Amount 1000 with charge 13 and a partner cost of 13 gives profit 0.0, NLNP, and 1.3 percent charged. |
| Payout.PayoutTransaction | Payout_Transactions.py:61-129 | The report is exactly the reference rows of the input rows with currency `NGN` and status exactly `success`, in input order. |
| Payout.PayoutRow | Payout_Transactions.py:68-107 | The reference report row. A missing charge is 0.0. partner_cost is the flat 10.0. profit = round(charge − 10, 1). pct_charged = charge. settled_amount = 0.0. The user id and amount are coerced, and non-numeric text gives a missing cell. `gain_status` is the sign classification of profit. |
| Payout.Prepare | Payout_Transactions.py:67-89 | The NGN frame, coerced, charge-filled, tagged and priced in place, is the prepared rows of the input. |
| Payout.Finalize | Payout_Transactions.py:94-107 | The in-place assignments after the status filter, with the projection, give every row its finished report row. |
| Payout.StagedRow | Payout_Transactions.py:67-107 | For a successful payout, the two rounds of stages give the reference row, including the flat cost written by the masked assignment. |
| Payout.StagedReport | Payout_Transactions.py:62-107 | Filtering on `success` after preparation selects exactly the NGN `success` rows. The finished result is the reference row of each of them, in order. |
| Payout.PayoutOrder | Payout_Transactions.py:62-92 | There is no sort. The k-th report row is the reference row of the input row at the k-th kept position, that row is kept, and the positions strictly increase. |
| Payout.PayoutRowFacts | Payout_Transactions.py:68-107 | Every reported payout has `type` TRANSFER, the Payout tags and `settled_amount` 0.0. Its `partner_cost` is 10.0, and `pct_charged` equals `charge`, which is 0.0 when missing. `transaction_reference` passes through with no fallback. `merchantId` is present exactly when `userId` is integer text. `transaction_amount` is present exactly when `amount` is decimal text, so a non-numeric amount becomes missing and the row is kept. Profit is always present, so `gain_status` is never blank. |
| Payout.PayoutGain | Payout_Transactions.py:70-107 | With the flat cost of 10 and one-decimal rounding, profit is within 0.05 of charge − 10, and a payout is a Profit exactly when the charge is above 10.05, NLNP exactly when it lies in [9.95, 10.05], and a Loss exactly when it is below 9.95. |
| Payout.ProfitExample | Payout_Transactions.py:68-107 | userId "7", amount "500", charge 15, status success gives merchant 7, amount 500, cost 10, profit 5.0, Profit, and `pct_charged` 15. |
| Common.TransactionDate | Reserved_Account_Collections.py:57-62 | The local day number is the day whose 86400 seconds contain the Lagos local time of the instant. |
| Common.LocalTimeMonotone | Reserved_Account_Collections.py:57-69 | Conversion to Lagos time keeps order, so sorting by either time is the same, and the day number never decreases. The ReportSorted lemmas use it to carry the epoch sort to `created_at`. |
| Common.GainStatus | Reserved_Account_Collections.py:112-115 | The classification is blank exactly when profit is missing. Otherwise it is Loss, NLNP or Profit exactly when profit is below, at, or above zero. |
| Common.StagedGainStatus | Dynamic_Account_Collections.py:117-120 | `LabelWhere` models one masked `loc` write of `gain_status`: it writes the label where the profit is present and passes the mask, and a missing profit compares false and keeps the old label. The blank-then-Loss-then-NLNP-then-Profit overwrites give the sign classification for every profit, blank when profit is missing. |
| Decimal.RoundHalfEven | Dynamic_Account_Collections.py:111 | The result is an integer within one half of its argument, and it is even at an exact half. |
| Decimal.RoundHalfEvenUnique | Dynamic_Account_Collections.py:111 | Those two properties single out the rounded integer. |
| Decimal.RoundIsNearest | Reserved_Account_Collections.py:76 | round(x, d) has at most d decimals and lies within half a unit of the d-th decimal of x. RoundError rests on it. |
| Decimal.RoundError | Dynamic_Account_Collections.py:111-114 | Rounding to d decimals moves a value by at most half a unit of the d-th decimal. |
| Decimal.RoundSign | Reserved_Account_Collections.py:98-115 | round(x, d) is positive, zero or negative exactly when x·10^d is above 0.5, within ±0.5, or below −0.5. |
| Coerce.ParseInt | Reserved_Account_Collections.py:72 | Coercion to an integer succeeds exactly on optionally signed, non-empty digit text. |
| Coerce.ParseIntText | Reserved_Account_Collections.py:72 | Coercion reads back the decimal text of every integer. |
| Coerce.ParseNumberDefined | Payout_Transactions.py:69 | Float coercion succeeds exactly on decimal text: an optional sign, then digits with at most one point, and not the point alone. |
| Coerce.ParseNumber | Payout_Transactions.py:69 | Float coercion of decimal text: the signed value of the digits before the point plus the digits after it over 10 to the number of fractional digits. Any success has a non-empty unsigned part. |
| Coerce.ParseNumberOfInt | Payout_Transactions.py:69 | Float coercion agrees with integer coercion on integer text. |
| Coerce.CellToInt | Payout_Transactions.py:68 | A cell becomes an integer exactly when it is present and integer text; every other cell becomes missing and the row is kept. |
| Coerce.CellToNumber | Payout_Transactions.py:69 | A cell becomes a number exactly when it is present and decimal text, and integer text becomes its value. Every other cell becomes missing. |
| Frame.Filter | Reserved_Account_Collections.py:66 | A boolean-mask selection keeps only rows that pass and never adds rows. |
| Frame.Map | Reserved_Account_Collections.py:117-137 | Computing columns row by row, ending in the final column selection, keeps the row count, and row k of the result is f of input row k. |
| Frame.FilterMembers | Dynamic_Account_Collections.py:68 | Every selected row is an input row, and every input row that passes is selected. |
| Frame.FilterLength | Reserved_Account_Collections.py:65-66 | The number of selected rows is the number of rows that pass. |
| Frame.FilterFilter | Reserved_Account_Collections.py:65-66 | Two selections in a row are one selection by the conjunction. |
| Frame.FilterMap | Dynamic_Account_Collections.py:87-90 | Selecting on a computed column is computing the column on the rows selected by the same test read through the computation. |
| Frame.FilterPermutation | Dynamic_Account_Collections.py:65-68 | Selecting from a rearrangement gives a rearrangement of the selection, so filtering after the sort keeps the same rows. |
| Frame.FilterSorted | Dynamic_Account_Collections.py:65-68 | Selection from a sorted frame stays sorted. |
| Frame.FilterIsSubsequence | Payout_Transactions.py:62 | The k-th selected row is the input row at the k-th passing position. |
| Frame.ArrangedMap | Reserved_Account_Collections.py:65-69 | Computing columns over any rearrangement of the selected rows gives one output row per selected row, the same output rows, and every output row comes from a selected input row. |
| Frame.SortBy | Reserved_Account_Collections.py:69 | `sort_values` gives a rearrangement of the same rows in non-decreasing key order. |
| Frame.Assign | Reserved_Account_Collections.py:76 | An in-place column assignment replaces every row by its updated version and changes nothing else. |

## Left out

- File input and output (`read_csv`, `to_csv`, the output path): each
  builder starts from a sequence of parsed rows and returns the report
  rows.
- The timezone library: Lagos time is modelled as a fixed UTC+1 offset, and
  the date as the local day number rather than a calendar date.
- `partner_charge` internals: the `utils` module is not part of this model.
  The function is a parameter, and no cap or rate is claimed. Applying it to
  a missing amount is modelled as a missing cost.
- Floating point: amounts are exact reals, and there is no NaN, no infinity,
  and no float representation error.
  - In the reserved and dynamic reports, a zero amount makes `pct_charged`
    missing (`None`), where pandas would produce infinity or NaN.
  - All other missing float cells are `None`.
  - The rounding bands are stated on exact reals. With binary floats the
    tie cases at a band's edge can come out the other way. For example
    10.05 − 10 is slightly above 0.05 in doubles, so pandas rounds it to
    0.1 and a payout charge of 10.05 is a Profit (and 9.95 a Loss). The
    model calls both NLNP. The same applies to the ±0.005 edges of the
    reserved and dynamic gain lemmas.
- pandas dtypes: the nullable `Int64` range (ids are unbounded integers) and
  the error `astype(float)` would raise on bad reserved amounts
  (Reserved_Account_Collections.py:73) are not modelled. The column is read
  as already numeric.
- Coerce.ParseNumber: only decimal text is accepted. Exponents, surrounding
  blanks, `inf`/`nan` spellings and other `to_numeric` forms become missing
  instead of numbers. Its value on text with a fractional part is given by
  its definition, and no lemma states it separately.
- Coerce.ParseInt: user ids such as `"12.0"`, `" 12"` (surrounding blanks)
  or `"1e3"` (exponent text), which `to_numeric` followed by a cast to
  `Int64` would accept (or, for a fractional value, reject with an error),
  are treated as non-integer text and become missing.
- Sort stability and tie order: only a sorted rearrangement is claimed, so
  the builder contracts state the report as a multiset plus an order on
  `created_at`, not as one exact sequence. SortBy itself is an insertion sort
  and not quicksort.
- A missing or unparsable `time` (NaT) is not modelled: times are integers.
- Columns the builders drop or never read (`id`, `session_id`, extra
  columns) are not represented, and `rename` is modelled by the field names
  of the working rows.
- Copy-on-write: the chained in-place fills
  `data["transaction_reference"].fillna(..., inplace=True)`
  (Reserved_Account_Collections.py:87) and `df_ngn["charge"].fillna(0.0,
  inplace=True)` (Payout_Transactions.py:70) are modelled as writing back to
  the frame, which is pandas' behaviour without copy-on-write (pandas 2.x by
  default). Under copy-on-write they change nothing, and then the reserved
  reference could stay missing and the payout profit could be missing.
- `warnings.filterwarnings`: process-wide configuration, not report logic.
