/**
  The report formulas over a set of records: the date-range filter, the
  per-ad and per-component summaries, the day, week and month rollups, the
  campaign totals, the conversion rates and the break-even ROAS. Every
  grouping is a fold over the records, and every division is guarded.
 */
module Rollup {
  import opened Base
  import opened Calendar
  import opened Records
  import opened Metrics
  import opened Folds

  // ----- the date range of a report -----

  /** The rows dated from `start` to `end`, both included, in order: each
      row of the range as many times as it occurs, and no other (see
      `InRangeAppend` for the order). */
  function InRange<T(==,!new)>(rs: seq<T>, dateOf: T -> Date, start: Date, end: Date): (out: seq<T>)
    ensures |out| <= |rs|
    ensures forall x :: x in out <==> x in rs && DateLe(start, dateOf(x)) && DateLe(dateOf(x), end)
    ensures forall x {:trigger Occurrences(out, x)} :: Occurrences(out, x) ==
                 if DateLe(start, dateOf(x)) && DateLe(dateOf(x), end) then Occurrences(rs, x) else 0
    decreases |rs|
  {
    if rs == [] then []
    else
      var init, x := rs[..|rs| - 1], rs[|rs| - 1];
      assert rs == init + [x];
      var kept := InRange(init, dateOf, start, end);
      if DateLe(start, dateOf(x)) && DateLe(dateOf(x), end) then kept + [x] else kept
  }

  /** Filtering a concatenation filters each part in turn, so the kept rows
      stay in table order. */
  lemma {:induction false} InRangeAppend<T(!new)>(a: seq<T>, b: seq<T>, dateOf: T -> Date, start: Date, end: Date)
    ensures InRange(a + b, dateOf, start, end) == InRange(a, dateOf, start, end) + InRange(b, dateOf, start, end)
    decreases |b|
  {
    if |b| == 0 {
      assert a + b == a;
    } else {
      var init := b[..|b| - 1];
      assert (a + b)[..|a + b| - 1] == a + init;
      InRangeAppend(a, init, dateOf, start, end);
    }
  }

  /** The range the reports open with runs from the earliest to the latest
      date, and keeps every row. */
  lemma {:induction false} InRangeKeepsAll<T(!new)>(rs: seq<T>, dateOf: T -> Date, start: Date, end: Date)
    requires forall i :: 0 <= i < |rs| ==> DateLe(start, dateOf(rs[i])) && DateLe(dateOf(rs[i]), end)
    ensures InRange(rs, dateOf, start, end) == rs
    decreases |rs|
  {
    if rs != [] {
      var init := rs[..|rs| - 1];
      assert forall i :: 0 <= i < |init| ==> init[i] == rs[i];
      InRangeKeepsAll(init, dateOf, start, end);
      assert rs == init + [rs[|rs| - 1]];
    }
  }

  // ----- column totals of a group -----

  /** A group's column totals, as `groupby(...).agg('sum')` gives them. */
  datatype Totals = Totals(investment: real, checkouts: real, revenue: real, netProfit: real, ppSold: real)

  function TotalsOf(rs: seq<Record>): Totals {
    Totals(Sum(rs, InvestmentOf), Sum(rs, CheckoutsOf), Sum(rs, RevenueOf), Sum(rs, NetProfitOf), Sum(rs, PpSoldOf))
  }

  function InvestmentTotal(t: Totals): real { t.investment }
  function CheckoutsTotal(t: Totals): real { t.checkouts }
  function RevenueTotal(t: Totals): real { t.revenue }
  function NetProfitTotal(t: Totals): real { t.netProfit }
  function PpSoldTotal(t: Totals): real { t.ppSold }

  // ----- one summary row -----

  /** How a summary guards its ROAS divisions: the per-ad and per-component
      tables test for a positive investment, the temporal rollups for a
      nonzero one. */
  datatype Guard = PositiveSpend | NonzeroSpend

  /** `x / y where y != 0 else 0`. */
  function RatioNonZero(x: real, y: real): (r: real)
    ensures y == 0.0 ==> r == 0.0
  {
    if y != 0.0 then x / y else 0.0
  }

  function Guarded(g: Guard, x: real, y: real): real {
    match g
    case PositiveSpend => Ratio(x, y)
    case NonzeroSpend => RatioNonZero(x, y)
  }

  /** The two guards agree unless the investment is negative, and then
      they do not: 100 over -50 is -2 under one and 0 under the other. */
  lemma GuardsAgree(x: real, y: real)
    ensures y >= 0.0 ==> Guarded(PositiveSpend, x, y) == Guarded(NonzeroSpend, x, y)
    ensures Guarded(NonzeroSpend, 100.0, -50.0) == -2.0 && Guarded(PositiveSpend, 100.0, -50.0) == 0.0
  {
  }

  /** One row of a summary table: the group, its totals, and the derived
      cost per principal sale, front-end revenue (principal sales at the
      principal price), front-end net profit, front-end ROAS and net ROAS. */
  datatype Summary<K> = Summary(
    key: K,
    totals: Totals,
    cpa: real,
    feRevenue: real,
    feNetProfit: real,
    roasFe: real,
    netRoas: real)

  function Summarize<K>(key: K, t: Totals, price: real, commission: real, g: Guard): Summary<K> {
    var fe := t.ppSold * price;
    var commissions := t.ppSold * commission;
    Summary(key, t,
      if t.ppSold > 0.0 then t.investment / t.ppSold else 0.0,
      fe,
      fe - t.investment - commissions,
      Guarded(g, fe, t.investment),
      Guarded(g, t.revenue - commissions, t.investment))
  }

  /** What a summary row means: without principal sales the CPA is 0, with
      them CPA times sales is the investment; without investment both ROAS
      values are 0, with it each ROAS times the investment is its revenue
      (front-end, or total less the commission on principal sales). */
  lemma SummaryMeaning<K>(key: K, t: Totals, price: real, commission: real, g: Guard)
    ensures var s := Summarize(key, t, price, commission, g);
      && s.key == key && s.totals == t
      && (t.ppSold <= 0.0 ==> s.cpa == 0.0)
      && (t.ppSold > 0.0 ==> s.cpa * t.ppSold == t.investment)
      && (t.investment == 0.0 ==> s.roasFe == 0.0 && s.netRoas == 0.0)
      && (t.investment > 0.0 ==>
            s.roasFe * t.investment == t.ppSold * price
            && s.netRoas * t.investment == t.revenue - t.ppSold * commission)
  {
    if t.ppSold > 0.0 {
      RatioInverse(t.investment, t.ppSold);
    }
    if t.investment > 0.0 {
      RatioInverse(t.ppSold * price, t.investment);
      RatioInverse(t.revenue - t.ppSold * commission, t.investment);
    }
  }

  // ----- a table of summaries -----

  /** The summaries of the groups `ks`, one row per key, in that order. */
  function SummarizeAll<K(==,!new)>(rs: seq<Record>, key: Record -> K, ks: seq<K>, price: real,
                                    commission: real, g: Guard): (out: seq<Summary<K>>)
    ensures |out| == |ks|
    ensures forall i :: 0 <= i < |ks| ==> out[i].key == ks[i] && out[i].totals == TotalsOf(Select(rs, key, ks[i]))
    decreases |ks|
  {
    if ks == [] then []
    else
      var k := ks[|ks| - 1];
      SummarizeAll(rs, key, ks[..|ks| - 1], price, commission, g)
        + [Summarize(k, TotalsOf(Select(rs, key, k)), price, commission, g)]
  }

  /** `groupby(key).agg(sum)` followed by the derived columns: one row per
      group of the records. */
  function SummaryTable<K(==,!new)>(rs: seq<Record>, key: Record -> K, price: real, commission: real, g: Guard): seq<Summary<K>> {
    SummarizeAll(rs, key, GroupKeys(rs, key), price, commission, g)
  }

  /** A column added up over the rows of a summary table. */
  function ColumnTotal<K>(rows: seq<Summary<K>>, field: Totals -> real): real
    decreases |rows|
  {
    if rows == [] then 0.0 else ColumnTotal(rows[..|rows| - 1], field) + field(rows[|rows| - 1].totals)
  }

  /** A summary table conserves every summed column: its rows add up to
      the records' total, whichever key groups them. */
  lemma RollupConserves<K(!new)>(rs: seq<Record>, key: Record -> K, price: real, commission: real, g: Guard,
                                 f: Record -> real, field: Totals -> real)
    requires forall group :: field(TotalsOf(group)) == Sum(group, f)
    ensures ColumnTotal(SummaryTable(rs, key, price, commission, g), field) == Sum(rs, f)
  {
    RowsAddUp(rs, key, GroupKeys(rs, key), price, commission, g, f, field);
    GroupingConserves(rs, key, f);
  }

  lemma {:induction false} RowsAddUp<K(!new)>(rs: seq<Record>, key: Record -> K, ks: seq<K>, price: real,
                                             commission: real, g: Guard, f: Record -> real, field: Totals -> real)
    requires forall group :: field(TotalsOf(group)) == Sum(group, f)
    ensures ColumnTotal(SummarizeAll(rs, key, ks, price, commission, g), field) == GroupTotals(rs, key, ks, f)
    decreases |ks|
  {
    if ks != [] {
      var init := ks[..|ks| - 1];
      RowsAddUp(rs, key, init, price, commission, g, f, field);
      var out := SummarizeAll(rs, key, ks, price, commission, g);
      assert out[..|out| - 1] == SummarizeAll(rs, key, init, price, commission, g);
    }
  }

  /** Each summed column of the totals is the sum of its record column. */
  lemma TotalsColumns()
    ensures forall group :: InvestmentTotal(TotalsOf(group)) == Sum(group, InvestmentOf)
    ensures forall group :: CheckoutsTotal(TotalsOf(group)) == Sum(group, CheckoutsOf)
    ensures forall group :: RevenueTotal(TotalsOf(group)) == Sum(group, RevenueOf)
    ensures forall group :: NetProfitTotal(TotalsOf(group)) == Sum(group, NetProfitOf)
    ensures forall group :: PpSoldTotal(TotalsOf(group)) == Sum(group, PpSoldOf)
  {
  }

  // ----- the keys of the reports -----

  /** The day of a record: the daily rollup groups by date and day name,
      and the name is a function of the date. */
  function DayKey(r: Record): Date { r.date }

  /** The Monday that starts a record's pandas week. */
  function WeekKey(r: Record): (k: int)
    ensures Weekday(k) == 0 && k <= DayNumber(r.date) < k + 7
  {
    WeekStartIsMonday(DayNumber(r.date));
    WeekStart(DayNumber(r.date))
  }

  /** The year and month of a record. */
  function MonthKeyOf(r: Record): (m: MonthKey)
    ensures m.year == r.date.year && m.month == r.date.month
  {
    MonthOf(r.date)
  }

  /** Every key of the weekly rollup is a Monday, and a record falls in a
      week's group exactly when its day lies in the seven days from that
      Monday on. */
  lemma WeekGroups(rs: seq<Record>, w: int)
    requires w in GroupKeys(rs, WeekKey)
    ensures Weekday(w) == 0
    ensures forall i :: 0 <= i < |rs| ==> (WeekKey(rs[i]) == w <==> w <= DayNumber(rs[i].date) < w + 7)
  {
    var j :| 0 <= j < |rs| && WeekKey(rs[j]) == w;
    WeekStartIsMonday(DayNumber(rs[j].date));
  }

  /** A month's group holds exactly the records of that year and month,
      each as many times as the table holds it. */
  lemma MonthGroups(rs: seq<Record>, m: MonthKey)
    ensures forall r :: r in Select(rs, MonthKeyOf, m) <==> r in rs && r.date.year == m.year && r.date.month == m.month
    ensures forall r :: Occurrences(Select(rs, MonthKeyOf, m), r) ==
                 if r.date.year == m.year && r.date.month == m.month then Occurrences(rs, r) else 0
  {
    var g := Select(rs, MonthKeyOf, m);
    forall r ensures r in g <==> r in rs && MonthKeyOf(r) == m {
      assert Occurrences(g, r) == multiset(g)[r];
      assert Occurrences(rs, r) == multiset(rs)[r];
    }
  }

  // ----- stale profit -----

  /** A record whose stored net profit was derived with commission `c0`. */
  predicate ProfitUnder(r: Record, c0: real) {
    r.netProfit == r.revenue - r.investment - PpCount(r) as real * c0
  }

  /** The temporal rollup adds up the stored net profits but recomputes the
      net ROAS with the current commission: when the records were derived
      with commission `c0` and the current one is `c`, the two disagree by
      exactly the principal sales times `c0 - c`. */
  lemma StaleProfit<K>(key: K, rs: seq<Record>, price: real, c0: real, c: real)
    requires forall r :: r in rs ==> ProfitUnder(r, c0)
    ensures var s := Summarize(key, TotalsOf(rs), price, c, NonzeroSpend);
      var t := s.totals;
      && t.netProfit == t.revenue - t.investment - t.ppSold * c0
      && (t.investment != 0.0 ==> s.netRoas * t.investment == t.netProfit + t.investment + t.ppSold * (c0 - c))
  {
    assert forall i :: 0 <= i < |rs| ==> rs[i] in rs;
    SumProfitUnder(rs, c0);
    var t := TotalsOf(rs);
    if t.investment != 0.0 {
      var x := t.revenue - t.ppSold * c;
      assert x / t.investment * t.investment == x;
    }
  }

  lemma {:induction false} SumProfitUnder(rs: seq<Record>, c0: real)
    requires forall i :: 0 <= i < |rs| ==> ProfitUnder(rs[i], c0)
    ensures Sum(rs, NetProfitOf) == Sum(rs, RevenueOf) - Sum(rs, InvestmentOf) - Sum(rs, PpSoldOf) * c0
    decreases |rs|
  {
    if rs != [] {
      var init := rs[..|rs| - 1];
      assert forall i :: 0 <= i < |init| ==> init[i] == rs[i];
      SumProfitUnder(init, c0);
      var p, q := Sum(init, PpSoldOf), PpSoldOf(rs[|rs| - 1]);
      assert (p + q) * c0 == p * c0 + q * c0;
    }
  }

  // ----- campaign totals -----

  /** Net ROAS from totals: revenue less the commission on principal sales,
      over a positive investment. */
  function NetRatio(revenue: real, ppSold: real, commission: real, investment: real): real {
    Ratio(revenue - ppSold * commission, investment)
  }

  /** The totals under a campaign's component table: investment, revenue
      and net profit added over its rows, and the net ROAS of the sums. */
  datatype CampaignTotals = CampaignTotals(investment: real, revenue: real, netProfit: real, netRoas: real)

  function TotalsOfRows<K>(rows: seq<Summary<K>>, commission: real): CampaignTotals {
    var investment := ColumnTotal(rows, InvestmentTotal);
    var revenue := ColumnTotal(rows, RevenueTotal);
    CampaignTotals(investment, revenue, ColumnTotal(rows, NetProfitTotal),
                   NetRatio(revenue, ColumnTotal(rows, PpSoldTotal), commission, investment))
  }

  /** The totals read off a summary table are the totals of the records
      themselves; in particular a campaign's totals under its component
      table. */
  lemma TotalsOfRowsOfRecords<K(!new)>(rs: seq<Record>, key: Record -> K, price: real, commission: real, g: Guard)
    ensures var t := TotalsOfRows(SummaryTable(rs, key, price, commission, g), commission);
      && t.investment == Sum(rs, InvestmentOf)
      && t.revenue == Sum(rs, RevenueOf)
      && t.netProfit == Sum(rs, NetProfitOf)
      && t.netRoas == NetRatio(Sum(rs, RevenueOf), Sum(rs, PpSoldOf), commission, Sum(rs, InvestmentOf))
  {
    var rows := SummaryTable(rs, key, price, commission, g);
    TotalsOfRowsMeaning(rows, commission);
    TotalsColumns();
    RollupConserves(rs, key, price, commission, g, InvestmentOf, InvestmentTotal);
    RollupConserves(rs, key, price, commission, g, RevenueOf, RevenueTotal);
    RollupConserves(rs, key, price, commission, g, NetProfitOf, NetProfitTotal);
    RollupConserves(rs, key, price, commission, g, PpSoldOf, PpSoldTotal);
  }

  lemma TotalsOfRowsMeaning<K>(rows: seq<Summary<K>>, commission: real)
    ensures var t := TotalsOfRows(rows, commission);
      && t.investment == ColumnTotal(rows, InvestmentTotal)
      && t.revenue == ColumnTotal(rows, RevenueTotal)
      && t.netProfit == ColumnTotal(rows, NetProfitTotal)
      && t.netRoas == NetRatio(ColumnTotal(rows, RevenueTotal), ColumnTotal(rows, PpSoldTotal), commission,
                               ColumnTotal(rows, InvestmentTotal))
  {
  }

  // ----- rates -----

  /** Principal sales per checkout started, as a percentage; 0 without
      checkouts. */
  function CheckoutRate(ppSold: real, checkouts: real): real {
    if checkouts > 0.0 then ppSold / checkouts * 100.0 else 0.0
  }

  /** Sales of an add-on item per principal sale, as a percentage; 0
      without principal sales. */
  function AdoptionRate(itemSold: real, ppSold: real): real {
    if ppSold > 0.0 then itemSold / ppSold * 100.0 else 0.0
  }

  /** A rate is a true percentage when the part does not exceed the whole:
      between 0 and 100, and exactly 100 when every checkout (every
      principal sale) converted (took the add-on). */
  lemma RatesArePercentages(part: real, whole: real)
    requires 0.0 <= part <= whole
    ensures 0.0 <= CheckoutRate(part, whole) <= 100.0
    ensures 0.0 <= AdoptionRate(part, whole) <= 100.0
    ensures whole > 0.0 && part == whole ==> CheckoutRate(part, whole) == 100.0 && AdoptionRate(part, whole) == 100.0
  {
    if whole > 0.0 {
      var q := part / whole;
      assert q * whole == part;
      assert q <= 1.0;
      if part == whole {
        assert q == 1.0;
      }
    }
  }

  /** The total sales of one funnel item over the records. */
  function ItemSales(rs: seq<Record>, alias: string): real {
    Sum(rs, (r: Record) => SalesOf(r, alias) as real)
  }

  /** The add-on items the report shows a figure for: every funnel entry
      but the principal one whose sales column the report holds. */
  predicate HasAdoption(e: FunnelEntry, columns: seq<string>) {
    e.key != PrincipalKey && SalesColumn(e.item.alias) in columns
  }

  /** One adoption figure per add-on item of the funnel whose sales column
      the report holds, in funnel order: the item's alias and its sales per
      principal sale, as a percentage. */
  function AdoptionRates(funnel: seq<FunnelEntry>, columns: seq<string>, rs: seq<Record>, ppSold: real): (out: seq<(string, real)>)
    ensures |out| <= |funnel|
    ensures forall p :: p in out ==>
      && (exists e :: e in funnel && HasAdoption(e, columns) && e.item.alias == p.0)
      && p.1 == AdoptionRate(ItemSales(rs, p.0), ppSold)
    ensures forall e :: e in funnel && HasAdoption(e, columns) ==>
      (e.item.alias, AdoptionRate(ItemSales(rs, e.item.alias), ppSold)) in out
    decreases |funnel|
  {
    if |funnel| == 0 then []
    else
      var init, e := funnel[..|funnel| - 1], funnel[|funnel| - 1];
      assert funnel == init + [e];
      var before := AdoptionRates(init, columns, rs, ppSold);
      if HasAdoption(e, columns) then before + [(e.item.alias, AdoptionRate(ItemSales(rs, e.item.alias), ppSold))]
      else before
  }

  /** The figures of a funnel split in two are the figures of the first part
      followed by those of the second: the report follows funnel order. */
  lemma {:induction false} AdoptionRatesInOrder(f1: seq<FunnelEntry>, f2: seq<FunnelEntry>, columns: seq<string>,
                                                rs: seq<Record>, ppSold: real)
    ensures AdoptionRates(f1 + f2, columns, rs, ppSold) == AdoptionRates(f1, columns, rs, ppSold) + AdoptionRates(f2, columns, rs, ppSold)
    decreases |f2|
  {
    if |f2| == 0 {
      assert f1 + f2 == f1;
    } else {
      var init := f2[..|f2| - 1];
      assert (f1 + f2)[..|f1 + f2| - 1] == f1 + init;
      AdoptionRatesInOrder(f1, init, columns, rs, ppSold);
    }
  }

  // ----- break-even -----

  /** The ROAS at which a principal sale pays for itself: the price over
      the price less the commission, or 0 when the commission eats the
      whole price. */
  function BreakEvenRoas(price: real, commission: real): real {
    var net := price - commission;
    if net > 0.0 then price / net else 0.0
  }

  /** Selling principal products at exactly the break-even ROAS leaves a
      net profit of 0, and the break-even ROAS is at least 1 (exactly 1
      without commission). */
  lemma BreakEvenMeaning(price: real, commission: real, sold: real, investment: real)
    requires 0.0 <= commission < price
    ensures BreakEvenRoas(price, commission) >= 1.0
    ensures commission == 0.0 ==> BreakEvenRoas(price, commission) == 1.0
    ensures investment > 0.0 && sold * price / investment == BreakEvenRoas(price, commission) ==>
      sold * price - sold * commission - investment == 0.0
  {
    var net := price - commission;
    QuotientAtLeastOne(price, net);
    if investment > 0.0 && sold * price / investment == price / net {
      BreakEvenProfit(price, net, sold, investment);
    }
  }

  /** A quotient whose numerator is at least its positive denominator is at
      least 1. */
  lemma QuotientAtLeastOne(p: real, n: real)
    requires 0.0 < n <= p
    ensures p / n >= 1.0
    ensures n == p ==> p / n == 1.0
  {
    assert p / n * n == p;
  }

  /** Sales whose revenue over the investment equals price over net price
      make the net revenue equal to the investment. */
  lemma BreakEvenProfit(price: real, net: real, sold: real, investment: real)
    requires price > 0.0 && net > 0.0 && investment > 0.0
    requires sold * price / investment == price / net
    ensures sold * net == investment
  {
    var b := price / net;
    assert b * net == price;
    assert sold * price == b * investment;
    assert sold * price * net == price * investment by {
      assert sold * price * net == b * investment * net;
      assert b * investment * net == (b * net) * investment;
    }
    assert (sold * net) * price == investment * price;
    CancelPositive(sold * net, investment, price);
  }

  lemma CancelPositive(x: real, y: real, c: real)
    requires c > 0.0 && x * c == y * c
    ensures x == y
  {
    assert x == x * c / c;
    assert y == y * c / c;
  }
}
