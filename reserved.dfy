/** The reserved-account collections report: transactions on the persistent
    virtual accounts assigned to merchants, including internal settlement
    movements, turned into rows of the common report. */
module ReservedAccount {
  import opened Common
  import opened Decimal
  import opened Coerce
  import opened Frame

  /** One parsed row of the reserved-account export. The `id` column, which
      the builder drops on load, is not represented. */
  datatype ReservedRecord = ReservedRecord(
    time: int,                              // epoch seconds
    userId: Option<string>,                 // merchant id, as text
    reference: Option<string>,              // secondary reference
    amount: Option<real>,
    amountSettled: Option<real>,
    transactionReference: Option<string>,   // primary reference, may be absent
    currency: Option<string>)

  function Time(r: ReservedRecord): int { r.time }

  /** `dropna(subset=["userId", "reference"])` */
  predicate HasUserAndReference(r: ReservedRecord)
  {
    r.userId.Some? && r.reference.Some?
  }

  /** The row is not one whose user id and reference are both blank. */
  predicate NotBothBlank(r: ReservedRecord)
  {
    !(r.userId == Some("") && r.reference == Some(""))
  }

  /** The rows that survive the clean-up; there is no currency or status
      filter in this report. */
  predicate Cleaned(r: ReservedRecord)
  {
    HasUserAndReference(r) && NotBothBlank(r)
  }

  /** Reference definition of the report row of one surviving transaction. */
  function ReservedRow(r: ReservedRecord, partnerCharge: real -> real): ReportRow
  {
    var merchant := CellToInt(r.userId);
    var charge :=
      if r.amount.Some? && r.amountSettled.Some?
      then Some(Round(r.amount.value - r.amountSettled.value, 2)) else None;
    var pct :=
      if charge.Some? && r.amount.Some? && r.amount.value != 0.0
      then Some(Round(charge.value * 100.0 / r.amount.value, 1)) else None;
    var cost := if r.amount.Some? then Some(partnerCharge(r.amount.value)) else None;
    var profit :=
      if charge.Some? && cost.Some? then Some(Round(charge.value - cost.value, 2)) else None;
    ReportRow(
      transactionReference :=
        if r.transactionReference.Some? then r.transactionReference else r.reference,
      merchantId := merchant,
      txType := Some("TRANSFER"),
      currency := r.currency,
      channel := "Collection",
      accountType := "Reserved",
      paymentRail :=
        if r.transactionReference.None? && merchant.Some? then "Settlement" else "Reserved_Account",
      transactionAmount := r.amount,
      settledAmount := r.amountSettled,
      charge := charge,
      partnerCost := cost,
      profit := profit,
      pctCharged := pct,
      gainStatus := GainStatus(profit),
      transactionDate := TransactionDate(r.time),
      createdAt := LocalTime(r.time))
  }

  function RowOf(partnerCharge: real -> real): ReservedRecord -> ReportRow
  {
    r => ReservedRow(r, partnerCharge)
  }

  /** The frame while it is being enriched: the loaded columns plus the
      columns the builder adds, which hold a blank until they are assigned.
      The renames of the builder are the field names of the output. */
  datatype Work = Work(
    createdAt: int,
    transactionDate: int,
    userId: Option<string>,
    merchantId: Option<int>,
    reference: Option<string>,
    amount: Option<real>,
    amountSettled: Option<real>,
    transactionReference: Option<string>,
    currency: Option<string>,
    charge: Option<real>,
    pctCharged: Option<real>,
    paymentRail: string,
    partnerCost: Option<real>,
    txType: Option<string>,
    accountType: string,
    channel: string,
    profit: Option<real>,
    gainStatus: string)

  /** A loaded row with its time converted to Lagos time and its date. */
  function Load(r: ReservedRecord): Work
  {
    Work(LocalTime(r.time), TransactionDate(r.time), r.userId, None, r.reference,
         r.amount, r.amountSettled, r.transactionReference, r.currency,
         None, None, "", None, None, "", "", None, "")
  }

  function CoerceUserId(w: Work): Work
  {
    w.(merchantId := CellToInt(w.userId))
  }

  function DeriveCharge(w: Work): Work
  {
    w.(charge := if w.amount.Some? && w.amountSettled.Some?
                 then Some(Round(w.amount.value - w.amountSettled.value, 2)) else None)
  }

  function DerivePctCharged(w: Work): Work
  {
    w.(pctCharged := if w.charge.Some? && w.amount.Some? && w.amount.value != 0.0
                     then Some(Round(w.charge.value * 100.0 / w.amount.value, 1)) else None)
  }

  function PickPaymentRail(w: Work): Work
  {
    w.(paymentRail := if w.transactionReference.None? && w.merchantId.Some?
                      then "Settlement" else "Reserved_Account")
  }

  function FillReference(w: Work): Work
  {
    w.(transactionReference := if w.transactionReference.Some? then w.transactionReference
                               else w.reference)
  }

  function AddPartnerCost(w: Work, partnerCharge: real -> real): Work
  {
    w.(partnerCost := if w.amount.Some? then Some(partnerCharge(w.amount.value)) else None)
  }

  function AddTags(w: Work): Work
  {
    w.(txType := Some("TRANSFER"), accountType := "Reserved", channel := "Collection")
  }

  function DeriveProfit(w: Work): Work
  {
    w.(profit := if w.charge.Some? && w.partnerCost.Some?
                 then Some(Round(w.charge.value - w.partnerCost.value, 2)) else None)
  }

  function ClearGain(w: Work): Work { w.(gainStatus := "") }

  function MarkLoss(w: Work): Work
  {
    w.(gainStatus := LabelWhere(w.gainStatus, w.profit, IsNegative, "Loss"))
  }

  function MarkBreakEven(w: Work): Work
  {
    w.(gainStatus := LabelWhere(w.gainStatus, w.profit, IsZero, "NLNP"))
  }

  function MarkProfit(w: Work): Work
  {
    w.(gainStatus := LabelWhere(w.gainStatus, w.profit, IsPositive, "Profit"))
  }

  /** The final column selection, in export order. */
  function Project(w: Work): ReportRow
  {
    ReportRow(w.transactionReference, w.merchantId, w.txType, w.currency, w.channel,
              w.accountType, w.paymentRail, w.amount, w.amountSettled, w.charge,
              w.partnerCost, w.profit, w.pctCharged, w.gainStatus, w.transactionDate,
              w.createdAt)
  }

  /** All column assignments, in the order of the source, applied to one
      loaded row. */
  function EnrichRow(w: Work, partnerCharge: real -> real): ReportRow
  {
    Project(MarkProfit(MarkBreakEven(MarkLoss(ClearGain(DeriveProfit(AddTags(
      AddPartnerCost(FillReference(PickPaymentRail(DerivePctCharged(DeriveCharge(
        CoerceUserId(w))))), partnerCharge))))))))
  }

  /** The column assignments, applied one after the other to a loaded row,
      give the reference row: in particular the payment rail is decided on the
      primary reference before the fallback fills it in. */
  lemma StagedRow(r: ReservedRecord, partnerCharge: real -> real)
    ensures EnrichRow(Load(r), partnerCharge) == ReservedRow(r, partnerCharge)
  {
    var ref := ReservedRow(r, partnerCharge);
    var w := FillReference(PickPaymentRail(DerivePctCharged(DeriveCharge(CoerceUserId(Load(r))))));
    assert w.transactionReference == ref.transactionReference;
    assert w.paymentRail == ref.paymentRail;
    assert w.charge == ref.charge && w.pctCharged == ref.pctCharged;
    var v := DeriveProfit(AddTags(AddPartnerCost(w, partnerCharge)));
    assert v.profit == ref.profit;
    StagedGainStatus(ref.profit);
  }

  /** The enrichment stage: the column assignments of the source, in its
      order, each one applied in place to every row of the frame. */
  method Enrich(rows: seq<ReservedRecord>, partnerCharge: real -> real)
    returns (processed: seq<ReportRow>)
    ensures processed == Map(RowOf(partnerCharge), rows)
  {
    var frame := new Work[|rows|](k requires 0 <= k < |rows| => Load(rows[k]));
    label loaded:
    Assign(frame, CoerceUserId);
    Assign(frame, DeriveCharge);
    Assign(frame, DerivePctCharged);
    label priced:
    Assign(frame, PickPaymentRail);
    Assign(frame, FillReference);
    label referenced:
    Assign(frame, w => AddPartnerCost(w, partnerCharge));
    Assign(frame, AddTags);
    Assign(frame, DeriveProfit);
    label profited:
    Assign(frame, ClearGain);
    Assign(frame, MarkLoss);
    Assign(frame, MarkBreakEven);
    Assign(frame, MarkProfit);
    processed := Map(Project, frame[..]);
    forall k | 0 <= k < |rows|
      ensures processed[k] == RowOf(partnerCharge)(rows[k])
    {
      assert old@loaded(frame[k]) == Load(rows[k]);
      assert old@priced(frame[k]) == DerivePctCharged(DeriveCharge(CoerceUserId(old@loaded(frame[k]))));
      assert old@referenced(frame[k]) == FillReference(PickPaymentRail(old@priced(frame[k])));
      assert old@profited(frame[k]) == DeriveProfit(AddTags(AddPartnerCost(old@referenced(frame[k]), partnerCharge)));
      assert frame[k] == MarkProfit(MarkBreakEven(MarkLoss(ClearGain(old@profited(frame[k])))));
      assert processed[k] == EnrichRow(Load(rows[k]), partnerCharge);
      StagedRow(rows[k], partnerCharge);
    }
  }

  /** The builder: clean-up, chronological sort, then enrichment. Every
      surviving row yields exactly one report row, and the report is in time
      order. */
  method ReservedAccountCollections(data: seq<ReservedRecord>, partnerCharge: real -> real)
    returns (processed: seq<ReportRow>)
    ensures |processed| == Count(Cleaned, data)
    ensures multiset(processed) == multiset(Map(RowOf(partnerCharge), Filter(Cleaned, data)))
    ensures forall i, j :: 0 <= i < j < |processed| ==> processed[i].createdAt <= processed[j].createdAt
    ensures forall o :: o in processed ==>
              exists r :: r in data && Cleaned(r) && o == ReservedRow(r, partnerCharge)
  {
    var kept := Filter(HasUserAndReference, data);
    kept := Filter(NotBothBlank, kept);
    var sorted := SortBy(kept, Time);
    processed := Enrich(sorted, partnerCharge);

    FilterFilter(NotBothBlank, HasUserAndReference, Cleaned, data);
    ArrangedMap(RowOf(partnerCharge), Cleaned, data, sorted);
    ReportSorted(sorted, partnerCharge);
  }

  /** Rows sorted by epoch time give a report sorted by local time. */
  lemma ReportSorted(sorted: seq<ReservedRecord>, partnerCharge: real -> real)
    requires SortedBy(sorted, Time)
    ensures forall i, j :: 0 <= i < j < |sorted| ==>
              Map(RowOf(partnerCharge), sorted)[i].createdAt <= Map(RowOf(partnerCharge), sorted)[j].createdAt
  {
    forall i, j | 0 <= i < j < |sorted|
      ensures Map(RowOf(partnerCharge), sorted)[i].createdAt <= Map(RowOf(partnerCharge), sorted)[j].createdAt
    {
      LocalTimeMonotone(sorted[i].time, sorted[j].time);
    }
  }

  /** What every surviving transaction's report row carries: a transaction
      reference (the primary one, else the secondary one, which the clean-up
      guarantees), the Settlement rail exactly for internal movements to a
      merchant, a merchant id exactly when the user id is integer text, and
      the three static tags. */
  lemma ReservedRowFacts(r: ReservedRecord, partnerCharge: real -> real)
    requires Cleaned(r)
    ensures ReservedRow(r, partnerCharge).transactionReference.Some?
    ensures r.transactionReference.Some? ==>
              ReservedRow(r, partnerCharge).transactionReference == r.transactionReference
    ensures r.transactionReference.None? ==>
              ReservedRow(r, partnerCharge).transactionReference == r.reference
    ensures ReservedRow(r, partnerCharge).merchantId.None? <==> !IsIntText(r.userId.value)
    ensures (ReservedRow(r, partnerCharge).paymentRail == "Settlement")
              <==> (r.transactionReference.None? && IsIntText(r.userId.value))
    ensures ReservedRow(r, partnerCharge).paymentRail == "Settlement"
              || ReservedRow(r, partnerCharge).paymentRail == "Reserved_Account"
    ensures ReservedRow(r, partnerCharge).txType == Some("TRANSFER")
    ensures ReservedRow(r, partnerCharge).accountType == "Reserved"
    ensures ReservedRow(r, partnerCharge).channel == "Collection"
  {
  }

  /** The classification of a reserved-account row in terms of the raw
      amounts: it is blank exactly when either amount is missing, and
      otherwise decided by the unrounded margin charge - cost at half a kobo
      (0.005). */
  lemma ReservedGain(r: ReservedRecord, partnerCharge: real -> real)
    ensures (ReservedRow(r, partnerCharge).gainStatus == "") <==> (r.amount.None? || r.amountSettled.None?)
    ensures r.amount.Some? && r.amountSettled.Some? ==>
              var margin := Round(r.amount.value - r.amountSettled.value, 2) - partnerCharge(r.amount.value);
              && (ReservedRow(r, partnerCharge).gainStatus == "Profit" <==> margin > 0.005)
              && (ReservedRow(r, partnerCharge).gainStatus == "NLNP" <==> -0.005 <= margin <= 0.005)
              && (ReservedRow(r, partnerCharge).gainStatus == "Loss" <==> margin < -0.005)
  {
    if r.amount.Some? && r.amountSettled.Some? {
      var margin := Round(r.amount.value - r.amountSettled.value, 2) - partnerCharge(r.amount.value);
      RoundSign(margin, 2);
      assert Scale(2) == 100.0;
    }
  }

  /** The money columns of a reserved-account row: all derived columns are
      missing when either amount is; otherwise the charge is amount - settled
      to the kobo (within 0.005), the percentage charged exists exactly when
      the amount is not zero and is right to one decimal (within 0.05), and
      the profit is charge - partner cost to the kobo. */
  lemma ReservedAmounts(r: ReservedRecord, partnerCharge: real -> real)
    ensures r.amount.None? ==> ReservedRow(r, partnerCharge).partnerCost.None?
    ensures r.amount.None? || r.amountSettled.None? ==>
              && ReservedRow(r, partnerCharge).charge.None?
              && ReservedRow(r, partnerCharge).pctCharged.None?
              && ReservedRow(r, partnerCharge).profit.None?
    ensures r.amount.Some? && r.amountSettled.Some? ==>
              var o := ReservedRow(r, partnerCharge);
              var a := r.amount.value;
              && o.charge.Some? && o.profit.Some?
              && -0.005 <= o.charge.value - (a - r.amountSettled.value) <= 0.005
              && o.partnerCost == Some(partnerCharge(a))
              && -0.005 <= o.profit.value - (o.charge.value - partnerCharge(a)) <= 0.005
              && (o.pctCharged.Some? <==> a != 0.0)
              && (a != 0.0 ==> -0.05 <= o.pctCharged.value - o.charge.value * 100.0 / a <= 0.05)
  {
    if r.amount.Some? && r.amountSettled.Some? {
      var a := r.amount.value;
      var c := Round(a - r.amountSettled.value, 2);
      assert Scale(2) == 100.0 && Scale(1) == 10.0;
      RoundError(a - r.amountSettled.value, 2);
      RoundError(c - partnerCharge(a), 2);
      if a != 0.0 {
        RoundError(c * 100.0 / a, 1);
      }
    }
  }
}
