/** `calculate_ji_amounts`: the merchant-discount ("JI") revenue of the
    selected rows for the month so far, per routing category and in total,
    and its projection to a full year. Amounts are exact; the currency
    formatting applied afterwards is not part of this module. */
module JiEstimator {
  import opened Dataset
  import opened Classifier
  import opened Aggregation

  /** The three MDR inputs, in percent. They may be zero or negative. */
  datatype MdrRates = MdrRates(onUs: real, offUs: real, intl: real)

  /** The numbers the JI summary shows. */
  datatype JiEstimate = JiEstimate(onUs: real, offUs: real, intl: real, totalMtd: real, annual: real)

  /** A month number the month box accepts. */
  predicate ValidMonth(month: int) {
    1 <= month <= 12
  }

  /** `volume * (rate / 100)`: a rate given in percent applied to a volume. */
  function ApplyRate(volume: real, ratePct: real): (fee: real)
    ensures volume == 0.0 || ratePct == 0.0 ==> fee == 0.0
    ensures ratePct == 100.0 ==> fee == volume
  {
    volume * (ratePct / 100.0)
  }

  /** Applying a rate distributes over adding volumes. */
  lemma ApplyRateAdditive(a: real, b: real, ratePct: real)
    ensures ApplyRate(a + b, ratePct) == ApplyRate(a, ratePct) + ApplyRate(b, ratePct)
  {
  }

  /** The JI of one routing category: its volume times its rate in percent. */
  function CategoryJi(rows: seq<Record>, t: Routing, ratePct: real): (ji: real)
    ensures ratePct == 0.0 ==> ji == 0.0
    ensures t !in KeysOf(rows, TransactionType) ==> ji == 0.0
  {
    SumWhereAbsentImplies(rows, TransactionType, t);
    ApplyRate(SumWhere(rows, TransactionType, t), ratePct)
  }

  /** The yearly projection of a month-to-date amount: it runs at the same
      monthly pace for twelve months. */
  function Annualise(totalMtd: real, month: int): (annual: real)
    requires ValidMonth(month)
    ensures annual * (month as real) == totalMtd * 12.0
    ensures month == 12 ==> annual == totalMtd
    ensures (annual == 0.0) == (totalMtd == 0.0)
    ensures (annual > 0.0) == (totalMtd > 0.0)
    ensures totalMtd >= 0.0 ==> annual >= totalMtd
  {
    totalMtd / (month as real) * 12.0
  }

  /** Projecting two amounts separately and adding gives the projection of
      their sum. */
  lemma AnnualiseAdditive(a: real, b: real, month: int)
    requires ValidMonth(month)
    ensures Annualise(a + b, month) == Annualise(a, month) + Annualise(b, month)
  {
  }

  /** `calculate_ji_amounts` without the formatting. The month is bounded by
      the month box, so the division is always defined. */
  function CalculateJiAmounts(rows: seq<Record>, rates: MdrRates, month: int): (e: JiEstimate)
    requires ValidMonth(month)
    ensures e.totalMtd == e.onUs + e.offUs + e.intl
    ensures e.annual * (month as real) == e.totalMtd * 12.0
    ensures month == 12 ==> e.annual == e.totalMtd
  {
    var onUs := CategoryJi(rows, OnUs, rates.onUs);
    var offUs := CategoryJi(rows, OffUs, rates.offUs);
    var intl := CategoryJi(rows, Intl, rates.intl);
    var total := onUs + offUs + intl;
    JiEstimate(onUs, offUs, intl, total, Annualise(total, month))
  }

  /** Each JI component is the matching pie-chart slice times its rate, and 0
      for a slice that is absent. Dropping JCB and CUP rows for the pie chart
      loses nothing: those rows are routed `Other`, which no component reads. */
  lemma JiMatchesRoutingSlices(rows: seq<Record>, rates: MdrRates, month: int)
    requires ValidMonth(month)
    ensures var e := CalculateJiAmounts(rows, rates, month);
      && e.onUs == ApplyRate(Lookup(VolumeByRouting(rows), OnUs), rates.onUs)
      && e.offUs == ApplyRate(Lookup(VolumeByRouting(rows), OffUs), rates.offUs)
      && e.intl == ApplyRate(Lookup(VolumeByRouting(rows), Intl), rates.intl)
  {
    RoutingSliceVolume(rows, OnUs);
    RoutingSliceVolume(rows, OffUs);
    RoutingSliceVolume(rows, Intl);
  }

  /** A pie-chart slice other than `Other` holds the whole volume of its
      category. */
  lemma RoutingSliceVolume(rows: seq<Record>, t: Routing)
    requires t != Routing.Other
    ensures Lookup(VolumeByRouting(rows), t) == SumWhere(rows, TransactionType, t)
  {
    OtherRowsNotCounted(rows, t);
    LookupGroupSum(PieRows(rows), TransactionType, t);
  }

  /** For any category but `Other`, the volume is the same with or without the
      JCB and CUP rows. */
  lemma OtherRowsNotCounted(rows: seq<Record>, t: Routing)
    requires t != Routing.Other
    ensures SumWhere(PieRows(rows), TransactionType, t) == SumWhere(rows, TransactionType, t)
  {
    SumWhereWhere(rows, InPie, TransactionType, t);
  }

  /** A row routed `Other`, wherever it stands, changes no JI amount. */
  lemma JiIgnoresOtherRows(a: seq<Record>, x: Record, b: seq<Record>, rates: MdrRates, month: int)
    requires ValidMonth(month)
    requires TransactionType(x) == Routing.Other
    ensures CalculateJiAmounts(a + [x] + b, rates, month) == CalculateJiAmounts(a + b, rates, month)
  {
    forall t ensures SumWhere(a + [x] + b, TransactionType, t) == SumWhere(a + b, TransactionType, t) + (if t == Routing.Other then x.mtdVol else 0.0) {
      SumWhereConcat(a + [x], b, TransactionType, t);
      SumWhereConcat(a, [x], TransactionType, t);
      SumWhereConcat(a, b, TransactionType, t);
    }
  }

  /** The JI of one category adds up over two parts of the selection. */
  lemma CategoryJiAdditive(a: seq<Record>, b: seq<Record>, t: Routing, ratePct: real)
    ensures CategoryJi(a + b, t, ratePct) == CategoryJi(a, t, ratePct) + CategoryJi(b, t, ratePct)
  {
    SumWhereConcat(a, b, TransactionType, t);
    ApplyRateAdditive(SumWhere(a, TransactionType, t), SumWhere(b, TransactionType, t), ratePct);
  }

  /** The monthly JI of two parts of the selection adds up to the monthly JI of
      the whole. */
  lemma JiAdditive(a: seq<Record>, b: seq<Record>, rates: MdrRates, month: int)
    requires ValidMonth(month)
    ensures var e, ea, eb := CalculateJiAmounts(a + b, rates, month), CalculateJiAmounts(a, rates, month), CalculateJiAmounts(b, rates, month);
      && e.onUs == ea.onUs + eb.onUs
      && e.offUs == ea.offUs + eb.offUs
      && e.intl == ea.intl + eb.intl
      && e.totalMtd == ea.totalMtd + eb.totalMtd
      && e.annual == ea.annual + eb.annual
  {
    CategoryJiAdditive(a, b, OnUs, rates.onUs);
    CategoryJiAdditive(a, b, OffUs, rates.offUs);
    CategoryJiAdditive(a, b, Intl, rates.intl);
    AnnualiseAdditive(CalculateJiAmounts(a, rates, month).totalMtd, CalculateJiAmounts(b, rates, month).totalMtd, month);
  }

  /** With no volume (in particular with no selected rows) every JI amount,
      and the projection, is 0. */
  lemma JiOfZeroVolume(rows: seq<Record>, rates: MdrRates, month: int)
    requires ValidMonth(month)
    requires forall i :: 0 <= i < |rows| ==> rows[i].mtdVol == 0.0
    ensures CalculateJiAmounts(rows, rates, month) == JiEstimate(0.0, 0.0, 0.0, 0.0, 0.0)
  {
    ZeroVolumeSums(rows, OnUs);
    ZeroVolumeSums(rows, OffUs);
    ZeroVolumeSums(rows, Intl);
  }

  lemma {:induction false} ZeroVolumeSums(rows: seq<Record>, t: Routing)
    requires forall i :: 0 <= i < |rows| ==> rows[i].mtdVol == 0.0
    ensures SumWhere(rows, TransactionType, t) == 0.0
  {
    if rows != [] {
      ZeroVolumeSums(rows[1..], t);
    }
  }

  /** The two rows of the worked example below. */
  function ExampleRows(): seq<Record> {
    [Record("M1", "X", "VC ON US", 1000.0), Record("M1", "X", "MC OFF US", 500.0)]
  }

  /** How the two example rows are classified. */
  lemma ExampleClassified()
    ensures SuperCardType(ExampleRows()[0]) == VC && TransactionType(ExampleRows()[0]) == OnUs
    ensures SuperCardType(ExampleRows()[1]) == MC && TransactionType(ExampleRows()[1]) == OffUs
    ensures InPie(ExampleRows()[0]) && InPie(ExampleRows()[1])
  {
    ClassifyOnUsLabel();
    ClassifyOffUsLabel();
  }

  /** The worked example's bar and pie charts: VC 1000 and MC 500; ON US 1000
      and OFF US 500. */
  lemma ExampleVolumes()
    ensures VolumeByNetwork(ExampleRows()) == map[VC := 1000.0, MC := 500.0]
    ensures VolumeByRouting(ExampleRows()) == map[OnUs := 1000.0, OffUs := 500.0]
  {
    ExampleClassified();
    TwoRowNetworkVolumes(ExampleRows()[0], ExampleRows()[1]);
    TwoRowRoutingVolumes(ExampleRows()[0], ExampleRows()[1]);
    assert ExampleRows() == [ExampleRows()[0], ExampleRows()[1]];
  }

  /** The worked example's volume per routing category. */
  lemma ExampleRoutingSums()
    ensures SumWhere(ExampleRows(), TransactionType, OnUs) == 1000.0
    ensures SumWhere(ExampleRows(), TransactionType, OffUs) == 500.0
  {
    var rows := ExampleRows();
    ExampleClassified();
    TwoRowRoutingVolumes(rows[0], rows[1]);
    assert rows == [rows[0], rows[1]];
  }

  /** The worked example's JI in January at 1% on-us, 2% off-us and 0%
      international: 10 + 10 + 0 = 20 for the month, 240 for the year. */
  lemma ExampleJi()
    ensures CalculateJiAmounts(ExampleRows(), MdrRates(1.0, 2.0, 0.0), 1) == JiEstimate(10.0, 10.0, 0.0, 20.0, 240.0)
  {
    ExampleRoutingSums();
    assert CategoryJi(ExampleRows(), OnUs, 1.0) == ApplyRate(1000.0, 1.0) == 10.0;
    assert CategoryJi(ExampleRows(), OffUs, 2.0) == ApplyRate(500.0, 2.0) == 10.0;
    assert CategoryJi(ExampleRows(), Intl, 0.0) == 0.0;
    assert Annualise(20.0, 1) == 240.0;
  }
}
