/** Shared vocabulary of the three report builders: nullable cells, the
    16-column report row, the Africa/Lagos clock and the gain classification. */
module Common {

  /** A cell that may be missing (NaN / None in the frame). */
  datatype Option<+T> = None | Some(value: T) {
    /** The value, or `default` when the cell is missing (pandas `fillna`). */
    function GetOr(default: T): T {
      match this
      case Some(v) => v
      case None => default
    }
  }

  /** One row of the exported report, in the column order of the export:
      transaction_reference, merchantId, type, currency, channel, account_type,
      payment_rail, transaction_amount, settled_amount, charge, partner_cost,
      profit, pct_charged, gain_status, transaction_date, created_at. */
  datatype ReportRow = ReportRow(
    transactionReference: Option<string>,
    merchantId: Option<int>,
    txType: Option<string>,
    currency: Option<string>,
    channel: string,
    accountType: string,
    paymentRail: string,
    transactionAmount: Option<real>,
    settledAmount: Option<real>,
    charge: Option<real>,
    partnerCost: Option<real>,
    profit: Option<real>,
    pctCharged: Option<real>,
    gainStatus: string,
    transactionDate: int,
    createdAt: int)

  /** Africa/Lagos keeps West Africa Time, UTC+1 all year round. */
  const LagosOffset: int := 3600
  const SecondsPerDay: int := 86400

  /** Epoch seconds converted to Lagos civil time with the zone dropped,
      counted in seconds from the local epoch. The zone is taken to be a
      fixed UTC+1 offset, with no daylight saving. */
  function LocalTime(epoch: int): int
  {
    epoch + LagosOffset
  }

  /** The local calendar day (days since 1970-01-01) that holds the instant. */
  function TransactionDate(epoch: int): (day: int)
    ensures day * SecondsPerDay <= LocalTime(epoch) < (day + 1) * SecondsPerDay
  {
    LocalTime(epoch) / SecondsPerDay
  }

  /** Converting to local time keeps chronological order, so sorting by the
      converted time is sorting by the epoch. */
  lemma LocalTimeMonotone(a: int, b: int)
    ensures a <= b <==> LocalTime(a) <= LocalTime(b)
    ensures a <= b ==> TransactionDate(a) <= TransactionDate(b)
  {
  }

  /** Reference definition of the classification: the sign of the rounded
      profit, and no label at all when profit is missing. */
  function GainStatus(profit: Option<real>): (g: string)
    ensures g == "" <==> profit.None?
    ensures profit.Some? ==> (g == "Loss" <==> profit.value < 0.0)
    ensures profit.Some? ==> (g == "NLNP" <==> profit.value == 0.0)
    ensures profit.Some? ==> (g == "Profit" <==> profit.value > 0.0)
  {
    match profit
    case None => ""
    case Some(v) =>
      if v < 0.0 then "Loss" else if v == 0.0 then "NLNP" else "Profit"
  }

  predicate IsNegative(v: real) { v < 0.0 }
  predicate IsZero(v: real) { v == 0.0 }
  predicate IsPositive(v: real) { v > 0.0 }

  /** One masked overwrite `df.loc[mask(profit), "gain_status"] = label`:
      a missing profit compares false and keeps the old label. */
  function LabelWhere(status: string, profit: Option<real>, mask: real -> bool, tag: string): string
  {
    if profit.Some? && mask(profit.value) then tag else status
  }

  /** The staged classification (blank, then Loss, NLNP, Profit overwrites)
      agrees with the reference definition on every profit. */
  lemma StagedGainStatus(profit: Option<real>)
    ensures LabelWhere(LabelWhere(LabelWhere("", profit, IsNegative, "Loss"),
                                  profit, IsZero, "NLNP"),
                       profit, IsPositive, "Profit") == GainStatus(profit)
  {
  }
}
