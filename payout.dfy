/** The payout report: transfers paid out to merchants, turned into rows of
    the common report. Unlike the collection reports it keeps the export's
    row order. */
module Payout {
  import opened Common
  import opened Decimal
  import opened Coerce
  import opened Frame

  /** One parsed row of the payout export. The user id and the amount are
      read as text and coerced by the builder; the `id` and `session_id`
      columns, which it drops, are not represented. */
  datatype PayoutRecord = PayoutRecord(
    time: int,                              // epoch seconds
    userId: Option<string>,
    transactionReference: Option<string>,
    amount: Option<string>,
    charge: Option<real>,
    status: Option<string>,
    currency: Option<string>)

  /** The flat partner cost of a successful payout. */
  const PayoutPartnerCost: real := 10.0

  predicate IsNgn(r: PayoutRecord) { r.currency == Some("NGN") }

  predicate StatusSuccess(r: PayoutRecord) { r.status == Some("success") }

  /** The rows that reach the report: the status literal is compared exactly,
      so "Success" or "SUCCESS" is dropped. */
  predicate Kept(r: PayoutRecord) { IsNgn(r) && StatusSuccess(r) }

  /** Reference definition of the report row of one kept payout. */
  function PayoutRow(r: PayoutRecord): ReportRow
  {
    var charge := r.charge.GetOr(0.0);
    var profit := Round(charge - PayoutPartnerCost, 1);
    ReportRow(
      transactionReference := r.transactionReference,
      merchantId := CellToInt(r.userId),
      txType := Some("TRANSFER"),
      currency := r.currency,
      channel := "Payout",
      accountType := "Payout",
      paymentRail := "Payout",
      transactionAmount := CellToNumber(r.amount),
      settledAmount := Some(0.0),
      charge := Some(charge),
      partnerCost := Some(PayoutPartnerCost),
      profit := Some(profit),
      pctCharged := Some(charge),
      gainStatus := GainStatus(Some(profit)),
      transactionDate := TransactionDate(r.time),
      createdAt := LocalTime(r.time))
  }

  /** The working frame: the loaded columns plus the columns the builder
      adds, blank until they are assigned. */
  datatype Work = Work(
    createdAt: int,
    transactionDate: int,
    userId: Option<string>,
    merchantId: Option<int>,
    transactionReference: Option<string>,
    amountText: Option<string>,
    amount: Option<real>,
    charge: Option<real>,
    status: Option<string>,
    currency: Option<string>,
    accountType: string,
    channel: string,
    paymentRail: string,
    settledAmount: Option<real>,
    partnerCost: Option<real>,
    txType: Option<string>,
    pctCharged: Option<real>,
    profit: Option<real>,
    gainStatus: string)

  /** A loaded row with its time converted to Lagos time and its date. */
  function Load(r: PayoutRecord): Work
  {
    Work(LocalTime(r.time), TransactionDate(r.time), r.userId, None, r.transactionReference,
         r.amount, None, r.charge, r.status, r.currency,
         "", "", "", None, None, None, None, None, "")
  }

  function CoerceUserId(w: Work): Work { w.(merchantId := CellToInt(w.userId)) }

  function CoerceAmount(w: Work): Work { w.(amount := CellToNumber(w.amountText)) }

  /** `charge.fillna(0.0)` */
  function FillCharge(w: Work): Work { w.(charge := Some(w.charge.GetOr(0.0))) }

  function AddTags(w: Work): Work
  {
    w.(accountType := "Payout", channel := "Payout", paymentRail := "Payout",
       settledAmount := Some(0.0))
  }

  predicate IsSuccess(w: Work) { w.status == Some("success") }

  /** The masked assignment of the flat cost: rows that are not successful
      keep a missing partner cost. */
  function PricePartner(w: Work): Work
  {
    if IsSuccess(w) then w.(partnerCost := Some(PayoutPartnerCost)) else w
  }

  /** Everything the NGN frame goes through before the status filter. */
  function Prepared(r: PayoutRecord): Work
  {
    PricePartner(AddTags(FillCharge(CoerceAmount(CoerceUserId(Load(r))))))
  }

  function AddType(w: Work): Work { w.(txType := Some("TRANSFER")) }

  /** The report shows the charge itself in the percentage column. */
  function CopyCharge(w: Work): Work { w.(pctCharged := w.charge) }

  function DeriveProfit(w: Work): Work
  {
    w.(profit := if w.charge.Some? && w.partnerCost.Some?
                 then Some(Round(w.charge.value - w.partnerCost.value, 1)) else None)
  }

  function ClearGain(w: Work): Work { w.(gainStatus := "") }

  function MarkLoss(w: Work): Work
  {
    w.(gainStatus := LabelWhere(w.gainStatus, w.profit, IsNegative, "Loss"))
  }

  function MarkBreakEven(w: Work): Work
  {
    w.(gainStatus := LabelWhere(w.gainStatus, w.profit, IsZero, "NLNP"))
  }

  function MarkProfit(w: Work): Work
  {
    w.(gainStatus := LabelWhere(w.gainStatus, w.profit, IsPositive, "Profit"))
  }

  /** The final column selection, in export order. */
  function Project(w: Work): ReportRow
  {
    ReportRow(w.transactionReference, w.merchantId, w.txType, w.currency, w.channel,
              w.accountType, w.paymentRail, w.amount, w.settledAmount, w.charge,
              w.partnerCost, w.profit, w.pctCharged, w.gainStatus, w.transactionDate,
              w.createdAt)
  }

  /** The column assignments after the status filter, applied to one row. */
  function Finish(w: Work): ReportRow
  {
    Project(MarkProfit(MarkBreakEven(MarkLoss(ClearGain(DeriveProfit(CopyCharge(AddType(w))))))))
  }

  /** The two rounds of column assignments give the reference row of every
      successful payout. */
  lemma StagedRow(r: PayoutRecord)
    requires StatusSuccess(r)
    ensures Finish(Prepared(r)) == PayoutRow(r)
  {
    var ref := PayoutRow(r);
    var w := Prepared(r);
    assert w.partnerCost == Some(PayoutPartnerCost);
    assert DeriveProfit(CopyCharge(AddType(w))).profit == ref.profit;
    StagedGainStatus(ref.profit);
  }

  /** The NGN frame, coerced, filled, tagged and priced in place. */
  method Prepare(ngn: seq<PayoutRecord>) returns (prepared: seq<Work>)
    ensures prepared == Map(Prepared, ngn)
  {
    var frame := new Work[|ngn|](k requires 0 <= k < |ngn| => Load(ngn[k]));
    Assign(frame, CoerceUserId);
    Assign(frame, CoerceAmount);
    Assign(frame, FillCharge);
    Assign(frame, AddTags);
    Assign(frame, PricePartner);
    prepared := frame[..];
    forall k | 0 <= k < |ngn|
      ensures prepared[k] == Prepared(ngn[k])
    {
    }
  }

  /** The successful payouts finished in place, column by column, then
      projected onto the report columns. */
  method Finalize(done: seq<Work>) returns (processed: seq<ReportRow>)
    ensures processed == Map(Finish, done)
  {
    var frame := new Work[|done|](k requires 0 <= k < |done| => done[k]);
    label loaded:
    Assign(frame, AddType);
    Assign(frame, CopyCharge);
    Assign(frame, DeriveProfit);
    label priced:
    Assign(frame, ClearGain);
    Assign(frame, MarkLoss);
    Assign(frame, MarkBreakEven);
    Assign(frame, MarkProfit);
    processed := Map(Project, frame[..]);
    forall k | 0 <= k < |done|
      ensures processed[k] == Finish(done[k])
    {
      assert old@loaded(frame[k]) == done[k];
      assert old@priced(frame[k]) == DeriveProfit(CopyCharge(AddType(old@loaded(frame[k]))));
      assert frame[k] == MarkProfit(MarkBreakEven(MarkLoss(ClearGain(old@priced(frame[k])))));
    }
  }

  /** The builder: NGN filter, preparation, "success" filter, then the second
      round of columns. The report is exactly the reference rows of the kept
      payouts, in the order of the export (there is no sort). */
  method PayoutTransaction(data: seq<PayoutRecord>) returns (processed: seq<ReportRow>)
    ensures processed == Map(PayoutRow, Filter(Kept, data))
  {
    var ngn := Filter(IsNgn, data);
    var prepared := Prepare(ngn);
    var done := Filter(IsSuccess, prepared);
    processed := Finalize(done);
    StagedReport(data);
  }

  /** Filtering on status after preparation and finishing the rest is the
      reference row of every kept payout, in the same order. */
  lemma StagedReport(data: seq<PayoutRecord>)
    ensures Map(Finish, Filter(IsSuccess, Map(Prepared, Filter(IsNgn, data))))
            == Map(PayoutRow, Filter(Kept, data))
  {
    FilterMap(IsSuccess, Prepared, StatusSuccess, Filter(IsNgn, data));
    FilterFilter(StatusSuccess, IsNgn, Kept, data);
    var kept := Filter(Kept, data);
    forall k | 0 <= k < |kept|
      ensures Finish(Prepared(kept[k])) == PayoutRow(kept[k])
    {
      StagedRow(kept[k]);
    }
  }

  /** The report keeps the export's order: its k-th row is the reference row
      of the input row at the k-th kept position, and those positions
      strictly increase. */
  lemma PayoutOrder(data: seq<PayoutRecord>)
    ensures |Positions(Kept, data, 0)| == |Map(PayoutRow, Filter(Kept, data))|
    ensures forall k :: 0 <= k < |Positions(Kept, data, 0)| ==>
              Positions(Kept, data, 0)[k] < |data| && Kept(data[Positions(Kept, data, 0)[k]])
              && Map(PayoutRow, Filter(Kept, data))[k] == PayoutRow(data[Positions(Kept, data, 0)[k]])
    ensures forall k, l :: 0 <= k < l < |Positions(Kept, data, 0)| ==>
              Positions(Kept, data, 0)[k] < Positions(Kept, data, 0)[l]
  {
    FilterIsSubsequence(Kept, data, 0);
    PositionsIncrease(Kept, data, 0);
  }

  /** What every kept payout's report row carries: the static tags, a zero
      settled amount, the flat partner cost, the charge (missing read as 0)
      in the percentage column, the reference passed through with no
      fallback, coerced ids and amounts, and a classification that is never
      blank. */
  lemma PayoutRowFacts(r: PayoutRecord)
    requires Kept(r)
    ensures PayoutRow(r).txType == Some("TRANSFER")
    ensures PayoutRow(r).accountType == "Payout"
    ensures PayoutRow(r).channel == "Payout"
    ensures PayoutRow(r).paymentRail == "Payout"
    ensures PayoutRow(r).settledAmount == Some(0.0)
    ensures PayoutRow(r).partnerCost == Some(10.0)
    ensures PayoutRow(r).pctCharged == PayoutRow(r).charge
    ensures r.charge.Some? ==> PayoutRow(r).charge == r.charge
    ensures r.charge.None? ==> PayoutRow(r).charge == Some(0.0)
    ensures PayoutRow(r).transactionReference == r.transactionReference
    ensures PayoutRow(r).merchantId.Some? <==> r.userId.Some? && IsIntText(r.userId.value)
    ensures PayoutRow(r).transactionAmount.Some? <==> r.amount.Some? && IsDecimalText(r.amount.value)
    ensures PayoutRow(r).profit.Some?
    ensures PayoutRow(r).gainStatus != ""
  {
  }

  /** With the flat cost of 10 and rounding to one decimal, the profit is
      charge - 10 to within 0.05, and a payout is a profit exactly when its
      charge exceeds 10.05, a loss exactly when it is below 9.95, and
      break-even in between, both ends included. */
  lemma PayoutGain(r: PayoutRecord)
    ensures var c := r.charge.GetOr(0.0);
            && -0.05 <= PayoutRow(r).profit.value - (c - 10.0) <= 0.05
            && (PayoutRow(r).gainStatus == "Profit" <==> c > 10.05)
            && (PayoutRow(r).gainStatus == "NLNP" <==> 9.95 <= c <= 10.05)
            && (PayoutRow(r).gainStatus == "Loss" <==> c < 9.95)
  {
    var c := r.charge.GetOr(0.0);
    assert Scale(1) == 10.0;
    RoundSign(c - PayoutPartnerCost, 1);
    RoundError(c - PayoutPartnerCost, 1);
  }

  /** A successful payout of 500 with a charge of 15 makes a profit of 5. */
  lemma ProfitExample()
    ensures var o := PayoutRow(PayoutRecord(1700000000, Some("7"), Some("T9"), Some("500"),
                                            Some(15.0), Some("success"), Some("NGN")));
            o.partnerCost == Some(10.0) && o.profit == Some(5.0)
            && o.gainStatus == "Profit" && o.pctCharged == Some(15.0)
            && o.merchantId == Some(7) && o.transactionAmount == Some(500.0)
  {
    assert Scale(1) == 10.0;
    RoundAt(15.0 - 10.0, 1, 50.0);
    RoundHalfEvenUnique(50.0, 50);
    assert IsIntText("7") && IsIntText("500");
    assert Unsigned("500") == "500";
    assert DigitsValue("500") == 500 by {
      assert "500"[..2] == "50" && "50"[..1] == "5" && "5"[..0] == "";
    }
  }
}
