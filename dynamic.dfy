/** The dynamic-account collections report: checkout payments collected
    through one-off virtual accounts, turned into rows of the common report. */
module DynamicAccount {
  import opened Common
  import opened Decimal
  import opened Frame

  /** One parsed row of the dynamic-account export, restricted to the columns
      the builder reads. */
  datatype DynamicRecord = DynamicRecord(
    time: int,                              // epoch seconds
    userId: Option<int>,
    internalRef: Option<string>,
    txType: Option<string>,
    transactionAmount: Option<real>,
    settledAmount: Option<real>,
    charge: Option<real>,
    status: Option<string>,
    currency: Option<string>)

  function Time(r: DynamicRecord): int { r.time }

  /** `fillna(0.00)` writes the number 0.0 into every missing cell, the text
      columns included; in a text column that cell reads back as "0.0". */
  const FilledText: string := "0.0"

  predicate IsNgn(r: DynamicRecord) { r.currency == Some("NGN") }

  /** The status test read on the raw row; a missing status, filled with 0.0,
      never equals "Done". */
  predicate StatusDone(r: DynamicRecord) { r.status == Some("Done") }

  /** The rows that reach the report. */
  predicate Kept(r: DynamicRecord) { IsNgn(r) && StatusDone(r) }

  /** Reference definition of the report row of one kept transaction. */
  function DynamicRow(r: DynamicRecord, partnerCharge: real -> real): ReportRow
  {
    var amount := r.transactionAmount.GetOr(0.0);
    var charge := r.charge.GetOr(0.0);
    var cost := partnerCharge(amount);
    var profit := Round(charge - cost, 2);
    ReportRow(
      transactionReference := Some(r.internalRef.GetOr(FilledText)),
      merchantId := Some(r.userId.GetOr(0)),
      txType := Some(r.txType.GetOr(FilledText)),
      currency := Some(r.currency.GetOr(FilledText)),
      channel := "Collection",
      accountType := "Dynamic",
      paymentRail := "Checkout_Collection",
      transactionAmount := Some(amount),
      settledAmount := Some(r.settledAmount.GetOr(0.0)),
      charge := Some(charge),
      partnerCost := Some(cost),
      profit := Some(profit),
      pctCharged := if amount != 0.0 then Some(Round(charge * 100.0 / amount, 3)) else None,
      gainStatus := GainStatus(Some(profit)),
      transactionDate := TransactionDate(r.time),
      createdAt := LocalTime(r.time))
  }

  function RowOf(partnerCharge: real -> real): DynamicRecord -> ReportRow
  {
    r => DynamicRow(r, partnerCharge)
  }

  /** The working frame: the ten columns kept from the export (with the time
      already converted) plus the columns the builder adds, blank until they
      are assigned. The renames of the builder are the field names of the
      output. */
  datatype Work = Work(
    userId: Option<int>,
    internalRef: Option<string>,
    txType: Option<string>,
    transactionAmount: Option<real>,
    settledAmount: Option<real>,
    charge: Option<real>,
    status: Option<string>,
    currency: Option<string>,
    transactionDate: int,
    createdAt: int,
    accountType: string,
    channel: string,
    paymentRail: string,
    partnerCost: Option<real>,
    profit: Option<real>,
    pctCharged: Option<real>,
    gainStatus: string)

  /** The column subset of a loaded row, with its time in Lagos time. */
  function Load(r: DynamicRecord): Work
  {
    Work(r.userId, r.internalRef, r.txType, r.transactionAmount, r.settledAmount, r.charge,
         r.status, r.currency, TransactionDate(r.time), LocalTime(r.time),
         "", "", "", None, None, None, "")
  }

  /** `fillna(0.00)` over the working columns. */
  function FillMissing(w: Work): Work
  {
    w.(userId := Some(w.userId.GetOr(0)),
       internalRef := Some(w.internalRef.GetOr(FilledText)),
       txType := Some(w.txType.GetOr(FilledText)),
       transactionAmount := Some(w.transactionAmount.GetOr(0.0)),
       settledAmount := Some(w.settledAmount.GetOr(0.0)),
       charge := Some(w.charge.GetOr(0.0)),
       status := Some(w.status.GetOr(FilledText)),
       currency := Some(w.currency.GetOr(FilledText)))
  }

  function Filled(r: DynamicRecord): Work { FillMissing(Load(r)) }

  /** The status filter on the filled frame. */
  predicate IsDone(w: Work) { w.status == Some("Done") }

  function AddTags(w: Work): Work
  {
    w.(accountType := "Dynamic", channel := "Collection", paymentRail := "Checkout_Collection")
  }

  function AddPartnerCost(w: Work, partnerCharge: real -> real): Work
  {
    w.(partnerCost := if w.transactionAmount.Some?
                      then Some(partnerCharge(w.transactionAmount.value)) else None)
  }

  function DeriveProfit(w: Work): Work
  {
    w.(profit := if w.charge.Some? && w.partnerCost.Some?
                 then Some(Round(w.charge.value - w.partnerCost.value, 2)) else None)
  }

  function DerivePctCharged(w: Work): Work
  {
    w.(pctCharged := if w.charge.Some? && w.transactionAmount.Some? && w.transactionAmount.value != 0.0
                     then Some(Round(w.charge.value * 100.0 / w.transactionAmount.value, 3))
                     else None)
  }

  function ClearGain(w: Work): Work { w.(gainStatus := "") }

  function MarkLoss(w: Work): Work
  {
    w.(gainStatus := LabelWhere(w.gainStatus, w.profit, IsNegative, "Loss"))
  }

  function MarkBreakEven(w: Work): Work
  {
    w.(gainStatus := LabelWhere(w.gainStatus, w.profit, IsZero, "NLNP"))
  }

  function MarkProfit(w: Work): Work
  {
    w.(gainStatus := LabelWhere(w.gainStatus, w.profit, IsPositive, "Profit"))
  }

  /** The final column selection, in export order. */
  function Project(w: Work): ReportRow
  {
    ReportRow(w.internalRef, w.userId, w.txType, w.currency, w.channel, w.accountType,
              w.paymentRail, w.transactionAmount, w.settledAmount, w.charge, w.partnerCost,
              w.profit, w.pctCharged, w.gainStatus, w.transactionDate, w.createdAt)
  }

  /** All column assignments after the status filter, applied to one row. */
  function EnrichRow(w: Work, partnerCharge: real -> real): ReportRow
  {
    Project(MarkProfit(MarkBreakEven(MarkLoss(ClearGain(DerivePctCharged(DeriveProfit(
      AddPartnerCost(AddTags(w), partnerCharge))))))))
  }

  function Enriched(partnerCharge: real -> real): Work -> ReportRow
  {
    w => EnrichRow(w, partnerCharge)
  }

  /** The zero-fill followed by the column assignments gives the reference
      row. */
  lemma StagedRow(r: DynamicRecord, partnerCharge: real -> real)
    ensures EnrichRow(Filled(r), partnerCharge) == DynamicRow(r, partnerCharge)
  {
    var ref := DynamicRow(r, partnerCharge);
    var w := DeriveProfit(AddPartnerCost(AddTags(Filled(r)), partnerCharge));
    assert w.profit == ref.profit;
    assert DerivePctCharged(w).pctCharged == ref.pctCharged;
    StagedGainStatus(ref.profit);
  }

  /** The NGN rows loaded into a frame that is zero-filled in place. */
  method FillFrame(ngn: seq<DynamicRecord>) returns (filled: seq<Work>)
    ensures filled == Map(Filled, ngn)
  {
    var frame := new Work[|ngn|](k requires 0 <= k < |ngn| => Load(ngn[k]));
    Assign(frame, FillMissing);
    filled := frame[..];
  }

  /** The successful rows enriched in place, column by column, in the order
      of the source, then projected onto the report columns. */
  method Enrich(done: seq<Work>, partnerCharge: real -> real) returns (processed: seq<ReportRow>)
    ensures processed == Map(Enriched(partnerCharge), done)
  {
    var frame := new Work[|done|](k requires 0 <= k < |done| => done[k]);
    label loaded:
    Assign(frame, AddTags);
    Assign(frame, w => AddPartnerCost(w, partnerCharge));
    Assign(frame, DeriveProfit);
    Assign(frame, DerivePctCharged);
    label priced:
    Assign(frame, ClearGain);
    Assign(frame, MarkLoss);
    Assign(frame, MarkBreakEven);
    Assign(frame, MarkProfit);
    processed := Map(Project, frame[..]);
    forall k | 0 <= k < |done|
      ensures processed[k] == EnrichRow(done[k], partnerCharge)
    {
      assert old@loaded(frame[k]) == done[k];
      assert old@priced(frame[k]) == DerivePctCharged(DeriveProfit(AddPartnerCost(AddTags(old@loaded(frame[k])), partnerCharge)));
      assert frame[k] == MarkProfit(MarkBreakEven(MarkLoss(ClearGain(old@priced(frame[k])))));
    }
  }

  /** The builder: chronological sort, NGN filter, zero-fill, "Done" filter,
      then enrichment. A row is reported exactly when it is an NGN row whose
      status is "Done", once, and the report is in time order. */
  method DynamicAccountTransaction(data: seq<DynamicRecord>, partnerCharge: real -> real)
    returns (processed: seq<ReportRow>)
    ensures |processed| == Count(Kept, data)
    ensures multiset(processed) == multiset(Map(RowOf(partnerCharge), Filter(Kept, data)))
    ensures forall i, j :: 0 <= i < j < |processed| ==> processed[i].createdAt <= processed[j].createdAt
    ensures forall o :: o in processed ==>
              exists r :: r in data && Kept(r) && o == DynamicRow(r, partnerCharge)
  {
    var sorted := SortBy(data, Time);
    var ngn := Filter(IsNgn, sorted);
    var filled := FillFrame(ngn);
    var done := Filter(IsDone, filled);
    processed := Enrich(done, partnerCharge);

    var kept := Filter(Kept, sorted);
    StagedReport(sorted, partnerCharge);
    FilterPermutation(Kept, sorted, data);
    ArrangedMap(RowOf(partnerCharge), Kept, data, kept);
    FilterSorted(Kept, sorted, Time);
    ReportSorted(kept, partnerCharge);
  }

  /** Filtering on status after the zero-fill and enriching the rest is the
      reference row of every NGN "Done" row, in the same order. */
  lemma StagedReport(sorted: seq<DynamicRecord>, partnerCharge: real -> real)
    ensures Map(Enriched(partnerCharge), Filter(IsDone, Map(Filled, Filter(IsNgn, sorted))))
            == Map(RowOf(partnerCharge), Filter(Kept, sorted))
  {
    FilterMap(IsDone, Filled, StatusDone, Filter(IsNgn, sorted));
    FilterFilter(StatusDone, IsNgn, Kept, sorted);
    forall r ensures EnrichRow(Filled(r), partnerCharge) == DynamicRow(r, partnerCharge) {
      StagedRow(r, partnerCharge);
    }
    MapCompose(Enriched(partnerCharge), Filled, RowOf(partnerCharge), Filter(Kept, sorted));
  }

  /** Rows sorted by epoch time give a report sorted by local time. */
  lemma ReportSorted(sorted: seq<DynamicRecord>, partnerCharge: real -> real)
    requires SortedBy(sorted, Time)
    ensures forall i, j :: 0 <= i < j < |sorted| ==>
              Map(RowOf(partnerCharge), sorted)[i].createdAt <= Map(RowOf(partnerCharge), sorted)[j].createdAt
  {
    forall i, j | 0 <= i < j < |sorted|
      ensures Map(RowOf(partnerCharge), sorted)[i].createdAt <= Map(RowOf(partnerCharge), sorted)[j].createdAt
    {
      LocalTimeMonotone(sorted[i].time, sorted[j].time);
    }
  }

  /** What every kept transaction's report row carries: the static tags, the
      renamed reference and merchant, the pass-through columns with missing
      cells read as zero (text cells as "0.0"), the partner cost of the amount, a profit that is
      always present, and so a classification that is never blank. */
  lemma DynamicRowFacts(r: DynamicRecord, partnerCharge: real -> real)
    requires Kept(r)
    ensures DynamicRow(r, partnerCharge).accountType == "Dynamic"
    ensures DynamicRow(r, partnerCharge).channel == "Collection"
    ensures DynamicRow(r, partnerCharge).paymentRail == "Checkout_Collection"
    ensures DynamicRow(r, partnerCharge).currency == Some("NGN")
    ensures r.internalRef.Some? ==> DynamicRow(r, partnerCharge).transactionReference == r.internalRef
    ensures r.userId.Some? ==> DynamicRow(r, partnerCharge).merchantId == r.userId
    ensures r.userId.None? ==> DynamicRow(r, partnerCharge).merchantId == Some(0)
    ensures r.internalRef.None? ==> DynamicRow(r, partnerCharge).transactionReference == Some(FilledText)
    ensures r.txType.None? ==> DynamicRow(r, partnerCharge).txType == Some(FilledText)
    ensures r.transactionAmount.Some? ==> DynamicRow(r, partnerCharge).transactionAmount == r.transactionAmount
    ensures r.transactionAmount.None? ==> DynamicRow(r, partnerCharge).transactionAmount == Some(0.0)
    ensures r.txType.Some? ==> DynamicRow(r, partnerCharge).txType == r.txType
    ensures r.settledAmount.Some? ==> DynamicRow(r, partnerCharge).settledAmount == r.settledAmount
    ensures r.settledAmount.None? ==> DynamicRow(r, partnerCharge).settledAmount == Some(0.0)
    ensures r.charge.Some? ==> DynamicRow(r, partnerCharge).charge == r.charge
    ensures r.charge.None? ==> DynamicRow(r, partnerCharge).charge == Some(0.0)
    ensures DynamicRow(r, partnerCharge).partnerCost
            == Some(partnerCharge(DynamicRow(r, partnerCharge).transactionAmount.value))
    ensures DynamicRow(r, partnerCharge).profit.Some?
    ensures DynamicRow(r, partnerCharge).gainStatus != ""
  {
  }

  /** The money columns of a dynamic-account row: profit is charge - partner
      cost to the kobo (within 0.005), the percentage charged exists exactly
      when the amount is not zero and is right to three decimals (within
      0.0005), and the classification is decided by the unrounded margin at
      half a kobo. */
  lemma DynamicGain(r: DynamicRecord, partnerCharge: real -> real)
    ensures var o := DynamicRow(r, partnerCharge);
            var margin := o.charge.value - o.partnerCost.value;
            var a := o.transactionAmount.value;
            && -0.005 <= o.profit.value - margin <= 0.005
            && (o.pctCharged.Some? <==> a != 0.0)
            && (a != 0.0 ==> -0.0005 <= o.pctCharged.value - o.charge.value * 100.0 / a <= 0.0005)
            && (o.gainStatus == "Profit" <==> margin > 0.005)
            && (o.gainStatus == "NLNP" <==> -0.005 <= margin <= 0.005)
            && (o.gainStatus == "Loss" <==> margin < -0.005)
  {
    var o := DynamicRow(r, partnerCharge);
    var a := o.transactionAmount.value;
    assert Scale(2) == 100.0 && Scale(3) == 1000.0;
    RoundSign(o.charge.value - o.partnerCost.value, 2);
    RoundError(o.charge.value - o.partnerCost.value, 2);
    if a != 0.0 {
      RoundError(o.charge.value * 100.0 / a, 3);
    }
  }

  /** A payment of 1000 with a charge of 13, when the partner also takes 13:
      no loss, no profit, and 1.3 percent charged. */
  lemma BreakEvenExample(partnerCharge: real -> real)
    requires partnerCharge(1000.0) == 13.0
    ensures var o := DynamicRow(DynamicRecord(1700000000, Some(5), Some("R1"), Some("pay"),
                                              Some(1000.0), Some(987.0), Some(13.0),
                                              Some("Done"), Some("NGN")), partnerCharge);
            o.partnerCost == Some(13.0) && o.profit == Some(0.0)
            && o.gainStatus == "NLNP" && o.pctCharged == Some(1.3)
  {
    assert Scale(2) == 100.0 && Scale(3) == 1000.0;
    RoundAt(0.0, 2, 0.0);
    RoundHalfEvenUnique(0.0, 0);
    RoundAt(13.0 * 100.0 / 1000.0, 3, 1300.0);
    RoundHalfEvenUnique(1300.0, 1300);
  }
}
