/**
  The global dashboard across offers (its KPIs, its per-offer breakdown
  and its weekday analysis) and the headline figures of one offer's lab
  page, which splits the offer's records into the testing phase and the
  scale phase.
 */
module Reports {
  import opened Base
  import opened Calendar
  import opened Records
  import opened Metrics
  import opened Folds
  import opened Rollup
  import opened Offers

  // ----- the dashboard's rows -----

  /** A row of the dashboard frame: a record with the name and the current
      commission of its offer attached. */
  datatype Row = Row(offer: string, commission: real, record: Record)

  function Tagged(o: Offer, rs: seq<Record>): (rows: seq<Row>)
    ensures |rows| == |rs|
    ensures forall i :: 0 <= i < |rs| ==> rows[i] == Row(o.name, o.commission, rs[i])
  {
    seq(|rs|, i requires 0 <= i < |rs| => Row(o.name, o.commission, rs[i]))
  }

  /** The rows of every campaign table of an offer, campaign after campaign. */
  function CampaignRows(o: Offer, cs: seq<CampaignEntry>): (rows: seq<Row>)
    ensures forall i :: 0 <= i < |rows| ==> rows[i].offer == o.name && rows[i].commission == o.commission
    decreases |cs|
  {
    if cs == [] then []
    else CampaignRows(o, cs[..|cs| - 1]) + Tagged(o, cs[|cs| - 1].campaign.table.rows)
  }

  /** Offers in testing or validated are on the dashboard; archived ones
      are not. */
  predicate OnDashboard(o: Offer) {
    o.status == InTesting || o.status == Validated
  }

  function OfferRows(o: Offer): (rows: seq<Row>)
    ensures forall i :: 0 <= i < |rows| ==> rows[i].offer == o.name && rows[i].commission == o.commission
  {
    Tagged(o, o.testing.rows) + CampaignRows(o, o.campaigns)
  }

  /** The row carries the name and commission of an offer of `offers` that
      is on the dashboard. */
  ghost predicate FromDashboardOffer(row: Row, offers: seq<Offer>) {
    exists k :: 0 <= k < |offers| && OnDashboard(offers[k])
      && row.offer == offers[k].name && row.commission == offers[k].commission
  }

  ghost predicate FromDashboard(rows: seq<Row>, offers: seq<Offer>) {
    forall i :: 0 <= i < |rows| ==> FromDashboardOffer(rows[i], offers)
  }

  /** Every row of every offer on the dashboard is among `rows`. */
  ghost predicate HoldsDashboard(rows: seq<Row>, offers: seq<Offer>) {
    forall k, row :: 0 <= k < |offers| && OnDashboard(offers[k]) && row in OfferRows(offers[k]) ==> row in rows
  }

  /** The dashboard frame: for each offer on the dashboard, in order, its
      testing rows and then its campaigns' rows (see `DashboardRowsAppend`
      for the order). */
  function DashboardRows(offers: seq<Offer>): (rows: seq<Row>)
    ensures FromDashboard(rows, offers)
    ensures HoldsDashboard(rows, offers)
    decreases |offers|
  {
    if |offers| == 0 then []
    else
      var init, o := offers[..|offers| - 1], offers[|offers| - 1];
      var before := DashboardRows(init);
      var tail := if OnDashboard(o) then OfferRows(o) else [];
      DashboardRowsStep(offers, before, tail);
      DashboardRowsHold(offers, before, tail);
      before + tail
  }

  lemma DashboardRowsStep(offers: seq<Offer>, before: seq<Row>, tail: seq<Row>)
    requires |offers| > 0
    requires FromDashboard(before, offers[..|offers| - 1])
    requires forall i :: 0 <= i < |tail| ==> var o := offers[|offers| - 1];
      tail[i].offer == o.name && tail[i].commission == o.commission && OnDashboard(o)
    ensures FromDashboard(before + tail, offers)
  {
    var n := |offers| - 1;
    var rows := before + tail;
    forall i | 0 <= i < |rows| ensures FromDashboardOffer(rows[i], offers) {
      if i < |before| {
        var k :| 0 <= k < n && OnDashboard(offers[..n][k])
          && before[i].offer == offers[..n][k].name && before[i].commission == offers[..n][k].commission;
        assert offers[..n][k] == offers[k];
        assert rows[i] == before[i];
        assert OnDashboard(offers[k]) && rows[i].offer == offers[k].name && rows[i].commission == offers[k].commission;
      } else {
        assert rows[i] == tail[i - |before|];
        assert OnDashboard(offers[n]) && rows[i].offer == offers[n].name && rows[i].commission == offers[n].commission;
      }
    }
  }

  lemma DashboardRowsHold(offers: seq<Offer>, before: seq<Row>, tail: seq<Row>)
    requires |offers| > 0
    requires HoldsDashboard(before, offers[..|offers| - 1])
    requires tail == if OnDashboard(offers[|offers| - 1]) then OfferRows(offers[|offers| - 1]) else []
    ensures HoldsDashboard(before + tail, offers)
  {
    var n := |offers| - 1;
    forall k, row | 0 <= k < |offers| && OnDashboard(offers[k]) && row in OfferRows(offers[k])
      ensures row in before + tail
    {
      if k < n {
        assert offers[..n][k] == offers[k];
      }
    }
  }

  /** The frame of two lists of offers is the frame of the first followed
      by the frame of the second: offers keep their order, and each row
      appears as often as its offer's tables hold it. */
  lemma {:induction false} DashboardRowsAppend(a: seq<Offer>, b: seq<Offer>)
    ensures DashboardRows(a + b) == DashboardRows(a) + DashboardRows(b)
    decreases |b|
  {
    if |b| == 0 {
      assert a + b == a;
    } else {
      var init, o := b[..|b| - 1], b[|b| - 1];
      var ab := a + b;
      assert ab[..|ab| - 1] == a + init && ab[|ab| - 1] == o;
      DashboardRowsAppend(a, init);
      var tail := if OnDashboard(o) then OfferRows(o) else [];
      assert DashboardRows(ab) == DashboardRows(a + init) + tail;
      assert DashboardRows(b) == DashboardRows(init) + tail;
      SeqAssoc(DashboardRows(a), DashboardRows(init), tail);
    }
  }

  lemma SeqAssoc<T>(x: seq<T>, y: seq<T>, z: seq<T>)
    ensures (x + y) + z == x + (y + z)
  {
  }

  /** The rows of an offer: its testing rows in table order, then every row
      of every campaign, campaign after campaign. */
  lemma OfferRowsHold(o: Offer, j: nat, i: nat)
    requires j < |o.campaigns| && i < |o.campaigns[j].campaign.table.rows|
    ensures forall t :: 0 <= t < |o.testing.rows| ==> OfferRows(o)[t] == Row(o.name, o.commission, o.testing.rows[t])
    ensures Row(o.name, o.commission, o.campaigns[j].campaign.table.rows[i]) in OfferRows(o)
  {
    CampaignRowsHold(o, o.campaigns, j, i);
  }

  lemma {:induction false} CampaignRowsHold(o: Offer, cs: seq<CampaignEntry>, j: nat, i: nat)
    requires j < |cs| && i < |cs[j].campaign.table.rows|
    ensures Row(o.name, o.commission, cs[j].campaign.table.rows[i]) in CampaignRows(o, cs)
    decreases |cs|
  {
    var n := |cs| - 1;
    var tagged := Tagged(o, cs[n].campaign.table.rows);
    if j < n {
      CampaignRowsHold(o, cs[..n], j, i);
      assert cs[..n][j] == cs[j];
    } else {
      assert tagged[i] == Row(o.name, o.commission, cs[j].campaign.table.rows[i]);
      assert CampaignRows(o, cs) == CampaignRows(o, cs[..n]) + tagged;
    }
  }

  // ----- the dashboard's KPIs -----

  function RowDate(row: Row): Date { row.record.date }
  function RowInvestment(row: Row): real { row.record.investment }
  function RowRevenue(row: Row): real { row.record.revenue }
  function RowNetProfit(row: Row): real { row.record.netProfit }
  function RowOffer(row: Row): string { row.offer }

  /** The commission a row owes: its principal sales times its offer's
      commission. */
  function RowCommission(row: Row): real { PpCount(row.record) as real * row.commission }

  datatype Kpis = Kpis(investment: real, revenue: real, commissions: real, netProfit: real, netRoas: real)

  /** The four KPIs over the rows in the date range: total spend, total
      gross revenue, net profit as revenue less spend less commissions, and
      net ROAS of the totals, 0 without spend. */
  function DashboardKpis(rows: seq<Row>): Kpis {
    var investment := Sum(rows, RowInvestment);
    var revenue := Sum(rows, RowRevenue);
    var commissions := Sum(rows, RowCommission);
    Kpis(investment, revenue, commissions, revenue - investment - commissions,
         Ratio(revenue - commissions, investment))
  }

  /** The net profit the dashboard shows is the sum of the net profits
      stored in the rows, provided every row was derived with its offer's
      current commission; the net ROAS times a positive spend is revenue
      less commissions. */
  lemma DashboardNetProfit(rows: seq<Row>)
    requires forall i :: 0 <= i < |rows| ==> ProfitUnder(rows[i].record, rows[i].commission)
    ensures DashboardKpis(rows).netProfit == Sum(rows, RowNetProfit)
    ensures var k := DashboardKpis(rows);
      k.investment > 0.0 ==> k.netRoas * k.investment == k.revenue - k.commissions
  {
    RowsProfitUnder(rows);
    var k := DashboardKpis(rows);
    if k.investment > 0.0 { RatioInverse(k.revenue - k.commissions, k.investment); }
  }

  lemma {:induction false} RowsProfitUnder(rows: seq<Row>)
    requires forall i :: 0 <= i < |rows| ==> ProfitUnder(rows[i].record, rows[i].commission)
    ensures Sum(rows, RowNetProfit) == Sum(rows, RowRevenue) - Sum(rows, RowInvestment) - Sum(rows, RowCommission)
    decreases |rows|
  {
    if rows != [] {
      var init := rows[..|rows| - 1];
      assert forall i :: 0 <= i < |init| ==> init[i] == rows[i];
      RowsProfitUnder(init);
    }
  }

  /** The dashboard opens on the range from the earliest to the latest
      date, which keeps every row. */
  lemma FullRangeKeepsKpis(rows: seq<Row>, start: Date, end: Date)
    requires forall i :: 0 <= i < |rows| ==> DateLe(start, RowDate(rows[i])) && DateLe(RowDate(rows[i]), end)
    ensures DashboardKpis(InRange(rows, RowDate, start, end)) == DashboardKpis(rows)
  {
    InRangeKeepsAll(rows, RowDate, start, end);
  }

  // ----- buckets: per offer and per weekday -----

  /** A line of a breakdown table: a key and the spend, revenue and net
      profit of its rows. */
  datatype Bucket<K> = Bucket(key: K, investment: real, revenue: real, netProfit: real)

  function BucketOf<K(==,!new)>(rows: seq<Row>, key: Row -> K, k: K): Bucket<K> {
    var g := Select(rows, key, k);
    Bucket(k, Sum(g, RowInvestment), Sum(g, RowRevenue), Sum(g, RowNetProfit))
  }

  /** One line per key of `ks`, in that order. */
  function BucketsOf<K(==,!new)>(rows: seq<Row>, key: Row -> K, ks: seq<K>): (bs: seq<Bucket<K>>)
    ensures |bs| == |ks|
    ensures forall i :: 0 <= i < |ks| ==> bs[i] == BucketOf(rows, key, ks[i])
    decreases |ks|
  {
    if ks == [] then []
    else BucketsOf(rows, key, ks[..|ks| - 1]) + [BucketOf(rows, key, ks[|ks| - 1])]
  }

  function BucketInvestment<K>(b: Bucket<K>): real { b.investment }
  function BucketRevenue<K>(b: Bucket<K>): real { b.revenue }
  function BucketNetProfit<K>(b: Bucket<K>): real { b.netProfit }

  /** The bucket lines, each group's sums, add up to the group totals. */
  lemma {:induction false} BucketsAddUp<K(!new)>(rows: seq<Row>, key: Row -> K, ks: seq<K>)
    ensures Sum(BucketsOf(rows, key, ks), BucketInvestment) == GroupTotals(rows, key, ks, RowInvestment)
    ensures Sum(BucketsOf(rows, key, ks), BucketRevenue) == GroupTotals(rows, key, ks, RowRevenue)
    ensures Sum(BucketsOf(rows, key, ks), BucketNetProfit) == GroupTotals(rows, key, ks, RowNetProfit)
    decreases |ks|
  {
    if ks != [] {
      var bs := BucketsOf(rows, key, ks);
      BucketsAddUp(rows, key, ks[..|ks| - 1]);
      assert bs[..|bs| - 1] == BucketsOf(rows, key, ks[..|ks| - 1]);
    }
  }

  /** The per-offer breakdown: one line per offer name, in order of first
      appearance. */
  function ByOffer(rows: seq<Row>): seq<Bucket<string>> {
    BucketsOf(rows, RowOffer, GroupKeys(rows, RowOffer))
  }

  /** The per-offer lines add up to the dashboard's totals. */
  lemma ByOfferConserves(rows: seq<Row>)
    ensures Sum(ByOffer(rows), BucketInvestment) == DashboardKpis(rows).investment
    ensures Sum(ByOffer(rows), BucketRevenue) == DashboardKpis(rows).revenue
    ensures Sum(ByOffer(rows), BucketNetProfit) == Sum(rows, RowNetProfit)
  {
    BucketsAddUp(rows, RowOffer, GroupKeys(rows, RowOffer));
    GroupingConserves(rows, RowOffer, RowInvestment);
    GroupingConserves(rows, RowOffer, RowRevenue);
    GroupingConserves(rows, RowOffer, RowNetProfit);
  }

  /** The seven ordered categories of the weekday analysis. */
  const DayLabels: seq<string> := ["Lunes", "Martes", "Miércoles", "Jueves", "Viernes", "Sábado", "Domingo"]

  /** `dt.day_name().str.capitalize()`: English names, Monday first. */
  const DayNames: seq<string> := ["Monday", "Tuesday", "Wednesday", "Thursday", "Friday", "Saturday", "Sunday"]

  lemma DayLabelsDistinct()
    ensures Distinct(DayLabels)
    ensures forall i, j :: 0 <= i < 7 && 0 <= j < 7 ==> DayNames[i] != DayLabels[j]
  {
    var s, e := DayLabels, DayNames;
    assert |s[0]| == 5 && |s[1]| == 6 && |s[2]| == 9 && |s[3]| == 6 && |s[4]| == 7 && |s[5]| == 6 && |s[6]| == 7;
    assert s[0][0] == 'L' && s[1][0] == 'M' && s[2][0] == 'M' && s[3][0] == 'J' && s[4][0] == 'V' && s[5][0] == 'S' && s[6][0] == 'D';
    assert |e[0]| == 6 && |e[1]| == 7 && |e[2]| == 9 && |e[3]| == 8 && |e[4]| == 6 && |e[5]| == 8 && |e[6]| == 6;
    assert e[0][0] == 'M' && e[1][0] == 'T' && e[2][0] == 'W' && e[3][0] == 'T' && e[4][0] == 'F' && e[5][0] == 'S' && e[6][0] == 'S';
    assert e[0][1] == 'o' && s[1][1] == 'a' && e[6][1] == 'u' && s[5][1] == 'á';
    forall i, j | 0 <= i < j < 7 ensures s[i] != s[j] {
      if |s[i]| == |s[j]| { assert s[i][0] != s[j][0]; }
    }
    forall i, j | 0 <= i < 7 && 0 <= j < 7 ensures e[i] != s[j] {
      if |e[i]| == |s[j]| && e[i][0] == s[j][0] { assert e[i][1] != s[j][1]; }
    }
  }

  /** The label a row is bucketed under, as written: its English day name. */
  function EnglishDay(row: Row): string {
    DayNames[Weekday(DayNumber(row.record.date))]
  }

  /** The label the analysis evidently means: the Spanish category of the
      row's weekday. */
  function SpanishDay(row: Row): (day: string)
    ensures day in DayLabels
  {
    DayLabels[Weekday(DayNumber(row.record.date))]
  }

  /** The weekday table as written: seven lines, keyed by the categories,
      grouping the rows by their English day names. */
  function WeekdayTableAsWritten(rows: seq<Row>): (bs: seq<Bucket<string>>)
    ensures |bs| == 7
  {
    BucketsOf(rows, EnglishDay, DayLabels)
  }

  /** As written, no row ever falls into a category: every line is 0. */
  lemma WeekdayTableAsWrittenEmpty(rows: seq<Row>)
    ensures forall i :: 0 <= i < 7 ==>
      var b := WeekdayTableAsWritten(rows)[i];
      b.investment == 0.0 && b.revenue == 0.0 && b.netProfit == 0.0
  {
    DayLabelsDistinct();
    forall i | 0 <= i < 7 ensures Select(rows, EnglishDay, DayLabels[i]) == [] {
      SelectNone(rows, EnglishDay, DayLabels[i]);
    }
  }

  /** No row is selected under a key no row has. */
  lemma {:induction false} SelectNone<K(!new)>(rows: seq<Row>, key: Row -> K, k: K)
    requires forall i :: 0 <= i < |rows| ==> key(rows[i]) != k
    ensures Select(rows, key, k) == []
    decreases |rows|
  {
    if rows != [] {
      SelectNone(rows[..|rows| - 1], key, k);
    }
  }

  /** One Monday row with a spend of 100: the dashboard counts 100, the
      weekday table as written shows 0 on every day. */
  lemma WeekdayTableMissesSpend()
    ensures var rows := [Row("Oferta", 0.0, Record(Date(2024, 1, 1), "Anuncio 1", 100.0, 0, map[], 0.0, -100.0, -100.0, 0.0, 0.0))];
      && DashboardKpis(rows).investment == 100.0
      && Sum(WeekdayTableAsWritten(rows), BucketInvestment) == 0.0
  {
    var rows := [Row("Oferta", 0.0, Record(Date(2024, 1, 1), "Anuncio 1", 100.0, 0, map[], 0.0, -100.0, -100.0, 0.0, 0.0))];
    SumSingle(rows[0], RowInvestment);
    var bs := WeekdayTableAsWritten(rows);
    WeekdayTableAsWrittenEmpty(rows);
    SumOfZeros(bs, BucketInvestment);
  }

  /** The weekday table as intended: seven lines, Monday to Sunday, that
      add up to the totals of the rows. */
  function WeekdayTable(rows: seq<Row>): (bs: seq<Bucket<string>>)
    ensures |bs| == 7 && forall i :: 0 <= i < 7 ==> bs[i].key == DayLabels[i]
  {
    BucketsOf(rows, SpanishDay, DayLabels)
  }

  lemma WeekdayTableConserves(rows: seq<Row>)
    ensures Sum(WeekdayTable(rows), BucketInvestment) == DashboardKpis(rows).investment
    ensures Sum(WeekdayTable(rows), BucketNetProfit) == Sum(rows, RowNetProfit)
  {
    DayLabelsDistinct();
    BucketsAddUp(rows, SpanishDay, DayLabels);
    GroupingConservesOver(rows, SpanishDay, DayLabels, RowInvestment);
    GroupingConservesOver(rows, SpanishDay, DayLabels, RowNetProfit);
  }

  /** A row lands on the line of its weekday, Monday being 0. */
  lemma WeekdayTableBuckets(rows: seq<Row>, i: nat)
    requires i < |rows|
    ensures var w := Weekday(DayNumber(rows[i].record.date));
      rows[i] in Select(rows, SpanishDay, WeekdayTable(rows)[w].key)
  {
    var w := Weekday(DayNumber(rows[i].record.date));
    SelectKeeps(rows, SpanishDay, i);
  }

  lemma {:induction false} SelectKeeps<K(!new)>(rows: seq<Row>, key: Row -> K, i: nat)
    requires i < |rows|
    ensures rows[i] in Select(rows, key, key(rows[i]))
    decreases |rows|
  {
    if i < |rows| - 1 {
      var init := rows[..|rows| - 1];
      SelectKeeps(init, key, i);
    }
  }

  // ----- the offer lab -----

  /** The figures of one phase of an offer: spend, gross revenue,
      commissions on principal sales, net profit, net ROAS. */
  datatype Phase = Phase(investment: real, revenue: real, ppSold: real, commissions: real, netProfit: real, netRoas: real)

  function PhaseOf(investment: real, revenue: real, ppSold: real, commission: real): Phase {
    var commissions := ppSold * commission;
    Phase(investment, revenue, ppSold, commissions, revenue - investment - commissions,
          Ratio(revenue - commissions, investment))
  }

  datatype Lab = Lab(testing: Phase, scale: Phase, investment: real, revenue: real, netProfit: real, netRoas: real)

  /** All the scale records of an offer, campaign after campaign. */
  function Flatten(tables: seq<seq<Record>>): seq<Record>
    decreases |tables|
  {
    if tables == [] then [] else Flatten(tables[..|tables| - 1]) + tables[|tables| - 1]
  }

  /** The lab page's headline figures: the testing phase from the testing
      table, the scale phase by adding up the campaign tables one by one,
      then the two phases combined. The combined figures are those of all
      the offer's records taken together. */
  method OfferLab(testing: seq<Record>, campaigns: seq<seq<Record>>, commission: real) returns (lab: Lab)
    ensures lab.testing == PhaseOfRecords(testing, commission)
    ensures lab.scale == PhaseOfRecords(Flatten(campaigns), commission)
    ensures var all := PhaseOfRecords(testing + Flatten(campaigns), commission);
      && lab.investment == all.investment
      && lab.revenue == all.revenue
      && lab.netProfit == all.netProfit
      && lab.netRoas == all.netRoas
  {
    var t := PhaseOfRecords(testing, commission);
    var investment, revenue, ppSold := ScaleSums(campaigns);
    var s := PhaseOf(investment, revenue, ppSold, commission);
    PhasesOfRecordsCombine(testing, Flatten(campaigns), commission);
    lab := Lab(t, s, t.investment + s.investment, t.revenue + s.revenue, t.netProfit + s.netProfit,
               Ratio(t.revenue + s.revenue - (t.commissions + s.commissions), t.investment + s.investment));
  }

  /** The figures of a set of records. */
  function PhaseOfRecords(rs: seq<Record>, commission: real): Phase {
    PhaseOf(Sum(rs, InvestmentOf), Sum(rs, RevenueOf), Sum(rs, PpSoldOf), commission)
  }

  /** The phases of two tables combine into the phase of both together. */
  lemma PhasesOfRecordsCombine(a: seq<Record>, b: seq<Record>, commission: real)
    ensures var t, s, all := PhaseOfRecords(a, commission), PhaseOfRecords(b, commission), PhaseOfRecords(a + b, commission);
      && t.investment + s.investment == all.investment
      && t.revenue + s.revenue == all.revenue
      && t.netProfit + s.netProfit == all.netProfit
      && Ratio(t.revenue + s.revenue - (t.commissions + s.commissions), t.investment + s.investment) == all.netRoas
  {
    SumAppend(a, b, InvestmentOf);
    SumAppend(a, b, RevenueOf);
    SumAppend(a, b, PpSoldOf);
    PhasesCombine(PhaseOfRecords(a, commission), PhaseOfRecords(b, commission), commission);
  }

  /** Two phases under one commission add up to the phase of their summed
      spend, revenue and principal sales. */
  lemma PhasesCombine(t: Phase, s: Phase, commission: real)
    requires t == PhaseOf(t.investment, t.revenue, t.ppSold, commission)
    requires s == PhaseOf(s.investment, s.revenue, s.ppSold, commission)
    ensures var both := PhaseOf(t.investment + s.investment, t.revenue + s.revenue, t.ppSold + s.ppSold, commission);
      && t.netProfit + s.netProfit == both.netProfit
      && Ratio(t.revenue + s.revenue - (t.commissions + s.commissions), t.investment + s.investment) == both.netRoas
  {
    assert (t.ppSold + s.ppSold) * commission == t.ppSold * commission + s.ppSold * commission;
  }

  /** The lab's `+=` loop over the campaign tables. */
  method ScaleSums(campaigns: seq<seq<Record>>) returns (investment: real, revenue: real, ppSold: real)
    ensures investment == Sum(Flatten(campaigns), InvestmentOf)
    ensures revenue == Sum(Flatten(campaigns), RevenueOf)
    ensures ppSold == Sum(Flatten(campaigns), PpSoldOf)
  {
    investment, revenue, ppSold := 0.0, 0.0, 0.0;
    for i := 0 to |campaigns|
      invariant investment == Sum(Flatten(campaigns[..i]), InvestmentOf)
      invariant revenue == Sum(Flatten(campaigns[..i]), RevenueOf)
      invariant ppSold == Sum(Flatten(campaigns[..i]), PpSoldOf)
    {
      var rs := campaigns[i];
      assert campaigns[..i + 1][..i] == campaigns[..i];
      SumAppend(Flatten(campaigns[..i]), rs, InvestmentOf);
      SumAppend(Flatten(campaigns[..i]), rs, RevenueOf);
      SumAppend(Flatten(campaigns[..i]), rs, PpSoldOf);
      investment := investment + Sum(rs, InvestmentOf);
      revenue := revenue + Sum(rs, RevenueOf);
      ppSold := ppSold + Sum(rs, PpSoldOf);
    }
    assert campaigns[..|campaigns|] == campaigns;
  }

  /** The earliest and the latest day number of a non-empty table. */
  function FirstDay(rs: seq<Record>): (d: int)
    requires rs != []
    ensures forall i :: 0 <= i < |rs| ==> d <= DayNumber(rs[i].date)
    ensures exists i :: 0 <= i < |rs| && d == DayNumber(rs[i].date)
    decreases |rs|
  {
    if |rs| == 1 then DayNumber(rs[0].date)
    else
      var init := rs[..|rs| - 1];
      assert forall i :: 0 <= i < |init| ==> init[i] == rs[i];
      var d := FirstDay(init);
      if DayNumber(rs[|rs| - 1].date) < d then DayNumber(rs[|rs| - 1].date) else d
  }

  function LastDay(rs: seq<Record>): (d: int)
    requires rs != []
    ensures forall i :: 0 <= i < |rs| ==> DayNumber(rs[i].date) <= d
    ensures exists i :: 0 <= i < |rs| && d == DayNumber(rs[i].date)
    decreases |rs|
  {
    if |rs| == 1 then DayNumber(rs[0].date)
    else
      var init := rs[..|rs| - 1];
      assert forall i :: 0 <= i < |init| ==> init[i] == rs[i];
      var d := LastDay(init);
      if DayNumber(rs[|rs| - 1].date) > d then DayNumber(rs[|rs| - 1].date) else d
  }

  /** Days covered by a table, both ends counted: 0 for an empty table;
      otherwise every record lies in the `n` days from the earliest one,
      and some record lies on the last of them. */
  function DaysElapsed(rs: seq<Record>): (n: int)
    ensures rs == [] ==> n == 0
    ensures rs != [] ==> n >= 1 && forall i :: 0 <= i < |rs| ==> FirstDay(rs) <= DayNumber(rs[i].date) < FirstDay(rs) + n
    ensures rs != [] ==> exists i :: 0 <= i < |rs| && DayNumber(rs[i].date) == FirstDay(rs) + n - 1
  {
    if rs == [] then 0 else LastDay(rs) - FirstDay(rs) + 1
  }
}
