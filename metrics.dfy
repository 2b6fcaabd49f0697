/**
  The derived metrics of one daily record (`calcular_metricas_diarias`):
  gross revenue from the sales of every funnel item at its price, the
  commission owed on principal-product sales, profits, and the two
  return-on-ad-spend ratios with the rule "0 when nothing was invested".
 */
module Metrics {
  import opened Base
  import opened Calendar
  import opened Records

  /** `x / y if y > 0 else 0`: the guarded ratio every ROAS uses. */
  function Ratio(x: real, y: real): (r: real)
    ensures y <= 0.0 ==> r == 0.0
  {
    if y > 0.0 then x / y else 0.0
  }

  /** A guarded ratio over a positive divisor times that divisor gives the
      dividend back. */
  lemma RatioInverse(x: real, y: real)
    requires y > 0.0
    ensures Ratio(x, y) * y == x
  {
  }

  /** What one funnel item adds to gross revenue: its sales times its price,
      counted only when the row holds a positive sales value for its alias. */
  function ItemRevenue(item: FunnelItem, sales: map<string, int>): real {
    if item.alias in sales && sales[item.alias] > 0 then sales[item.alias] as real * item.price
    else 0.0
  }

  /** What one funnel item adds to the principal-product sales: its counted
      sales when its sales column is the principal one. */
  function ItemPpSales(item: FunnelItem, sales: map<string, int>): int {
    if item.alias in sales && sales[item.alias] > 0 && item.alias == PrincipalAlias
    then sales[item.alias] else 0
  }

  /** Gross revenue over the funnel items, in iteration order. */
  function GrossRevenue(items: seq<FunnelItem>, sales: map<string, int>): real
    decreases |items|
  {
    if items == [] then 0.0
    else GrossRevenue(items[..|items| - 1], sales) + ItemRevenue(items[|items| - 1], sales)
  }

  /** Principal-product sales over the funnel items. */
  function PpSales(items: seq<FunnelItem>, sales: map<string, int>): (n: int)
    ensures n >= 0
    decreases |items|
  {
    if items == [] then 0
    else PpSales(items[..|items| - 1], sales) + ItemPpSales(items[|items| - 1], sales)
  }

  /** The record with its five derived metrics written from a gross
      revenue, a principal sales count and a per-sale commission; nothing
      else about it changes. */
  function Derive(r: Record, gross: real, pp: int, commission: real): (m: Record)
    ensures m.date == r.date && m.subject == r.subject && m.sales == r.sales
    ensures m.investment == r.investment && m.checkouts == r.checkouts
  {
    var net := gross - pp as real * commission;
    r.(revenue := gross,
       grossProfit := gross - r.investment,
       netProfit := net - r.investment,
       grossRoas := Ratio(gross, r.investment),
       netRoas := Ratio(net, r.investment))
  }

  /** The record with its derived metrics computed under a funnel and a
      per-sale commission. */
  function WithMetrics(r: Record, items: seq<FunnelItem>, commission: real): (m: Record)
    ensures m.date == r.date && m.subject == r.subject && m.sales == r.sales
    ensures m.investment == r.investment && m.checkouts == r.checkouts
    ensures m.revenue - m.grossProfit == r.investment
  {
    Derive(r, GrossRevenue(items, r.sales), PpSales(items, r.sales), commission)
  }

  /** A record whose derived metrics agree with its inputs. */
  predicate Consistent(r: Record, items: seq<FunnelItem>, commission: real) {
    WithMetrics(r, items, commission) == r
  }

  // ----- the daily record as the source updates it -----

  /** A daily record being filled in: the inputs of the entry form, and the
      derived fields the calculation writes into it. */
  class DailyEntry {
    var date: Date
    var subject: string
    var investment: real
    var checkouts: int
    var sales: map<string, int>
    var revenue: real
    var grossProfit: real
    var netProfit: real
    var grossRoas: real
    var netRoas: real

    constructor (r: Record)
      ensures Value() == r
    {
      date, subject, investment, checkouts, sales := r.date, r.subject, r.investment, r.checkouts, r.sales;
      revenue, grossProfit, netProfit, grossRoas, netRoas := r.revenue, r.grossProfit, r.netProfit, r.grossRoas, r.netRoas;
    }

    /** The entry as a record value. */
    function Value(): Record
      reads this
    {
      Record(date, subject, investment, checkouts, sales,
             revenue, grossProfit, netProfit, grossRoas, netRoas)
    }

    /** `calcular_metricas_diarias`: walk the funnel adding up revenue and
        principal sales, then write the five derived fields. */
    method ComputeMetrics(items: seq<FunnelItem>, commission: real)
      modifies this
      ensures Value() == WithMetrics(old(Value()), items, commission)
    {
      var gross := 0.0;
      var pp := 0;
      var row := sales;
      assert row == old(Value()).sales;
      for i := 0 to |items|
        invariant gross == GrossRevenue(items[..i], row)
        invariant pp == PpSales(items[..i], row)
        invariant Value() == old(Value())
      {
        PrefixStep(items, i, row);
        var item := items[i];
        var column := SalesColumn(item.alias);
        if item.alias in row && row[item.alias] > 0 {
          gross := gross + row[item.alias] as real * item.price;
          if column == SalesColumn(PrincipalAlias) {
            SalesColumnInjective(item.alias, PrincipalAlias);
            pp := pp + row[item.alias];
          }
        }
      }
      assert items[..|items|] == items;
      WriteMetrics(gross, pp, commission);
    }

    /** The closing assignments of the calculation. */
    method WriteMetrics(gross: real, pp: int, commission: real)
      modifies this
      ensures Value() == Derive(old(Value()), gross, pp, commission)
    {
      var commissions := pp as real * commission;
      var net := gross - commissions;
      revenue := gross;
      grossProfit := gross - investment;
      netProfit := net - investment;
      grossRoas := if investment > 0.0 then gross / investment else 0.0;
      netRoas := if investment > 0.0 then net / investment else 0.0;
    }
  }

  /** Extending the walked prefix by one item adds that item's share. */
  lemma PrefixStep(items: seq<FunnelItem>, i: nat, sales: map<string, int>)
    requires i < |items|
    ensures GrossRevenue(items[..i + 1], sales) == GrossRevenue(items[..i], sales) + ItemRevenue(items[i], sales)
    ensures PpSales(items[..i + 1], sales) == PpSales(items[..i], sales) + ItemPpSales(items[i], sales)
  {
    assert items[..i + 1][..i] == items[..i];
  }

  // ----- what the metrics mean -----

  /** Without investment both ROAS values are exactly 0; with it, each ROAS
      times the investment gives back its revenue, gross or net of the
      commission. */
  lemma RoasMeaning(r: Record, gross: real, pp: int, commission: real)
    ensures var m := Derive(r, gross, pp, commission);
      && (r.investment <= 0.0 ==> m.grossRoas == 0.0 && m.netRoas == 0.0)
      && (r.investment > 0.0 ==>
            && m.grossRoas * r.investment == gross
            && m.netRoas * r.investment == gross - pp as real * commission)
  {
    if r.investment > 0.0 {
      RatioInverse(gross, r.investment);
      RatioInverse(gross - pp as real * commission, r.investment);
    }
  }

  /** Gross profit is revenue less investment, and net profit falls short of
      it by exactly the commission owed on the principal sales. */
  lemma ProfitMeaning(r: Record, gross: real, pp: int, commission: real)
    ensures var m := Derive(r, gross, pp, commission);
      && m.revenue - m.grossProfit == r.investment
      && m.grossProfit - m.netProfit == pp as real * commission
  {
  }

  /** The calculation never reads its own outputs: running it on its result
      gives the same record. */
  lemma MetricsIdempotent(r: Record, items: seq<FunnelItem>, commission: real)
    ensures Consistent(WithMetrics(r, items, commission), items, commission)
  {
  }

  /** Number of funnel items carrying an alias. */
  function AliasCount(items: seq<FunnelItem>, alias: string): nat
    decreases |items|
  {
    if items == [] then 0
    else AliasCount(items[..|items| - 1], alias) + (if items[|items| - 1].alias == alias then 1 else 0)
  }

  /** With exactly one principal item in the funnel, the principal sales are
      the row's principal sales value when positive, and 0 otherwise. */
  lemma {:induction false} PpSalesOfOnePrincipal(items: seq<FunnelItem>, sales: map<string, int>)
    requires AliasCount(items, PrincipalAlias) == 1
    ensures PpSales(items, sales) ==
      if PrincipalAlias in sales && sales[PrincipalAlias] > 0 then sales[PrincipalAlias] else 0
    decreases |items|
  {
    var init, last := items[..|items| - 1], items[|items| - 1];
    if last.alias == PrincipalAlias {
      NoPrincipalNoPpSales(init, sales);
    } else {
      PpSalesOfOnePrincipal(init, sales);
    }
  }

  lemma {:induction false} NoPrincipalNoPpSales(items: seq<FunnelItem>, sales: map<string, int>)
    requires AliasCount(items, PrincipalAlias) == 0
    ensures PpSales(items, sales) == 0
    decreases |items|
  {
    if items != [] {
      NoPrincipalNoPpSales(items[..|items| - 1], sales);
    }
  }

  /** With no negative price, gross revenue is never negative, and it is 0
      when the row holds no positive sales value for any funnel alias. */
  lemma {:induction false} GrossRevenueBounds(items: seq<FunnelItem>, sales: map<string, int>)
    requires forall i :: 0 <= i < |items| ==> items[i].price >= 0.0
    ensures GrossRevenue(items, sales) >= 0.0
    ensures (forall i :: 0 <= i < |items| ==> items[i].alias !in sales || sales[items[i].alias] <= 0)
      ==> GrossRevenue(items, sales) == 0.0
    decreases |items|
  {
    if items != [] {
      var init := items[..|items| - 1];
      assert forall i :: 0 <= i < |init| ==> init[i] == items[i];
      GrossRevenueBounds(init, sales);
    }
  }

  /** The worked example: principal price 50, one record with 100 invested
      and 3 principal sales gives revenue 150, net profit 50 and net ROAS
      1.5; a commission of 10 per sale brings net profit to 20 and net ROAS
      to exactly 1.2. */
  lemma WorkedExample(d: Date, subject: string)
    ensures var items := [FunnelItem("Producto Principal", 50.0, PrincipalAlias, Active)];
      var r := Record(d, subject, 100.0, 0, map[PrincipalAlias := 3], 0.0, 0.0, 0.0, 0.0, 0.0);
      && WithMetrics(r, items, 0.0).revenue == 150.0
      && WithMetrics(r, items, 0.0).netProfit == 50.0
      && WithMetrics(r, items, 0.0).netRoas == 1.5
      && WithMetrics(r, items, 10.0).netProfit == 20.0
      && WithMetrics(r, items, 10.0).netRoas == 1.2
  {
    var items := [FunnelItem("Producto Principal", 50.0, PrincipalAlias, Active)];
    var sales := map[PrincipalAlias := 3];
    assert items[..0] == [];
    assert GrossRevenue(items, sales) == 150.0;
    assert PpSales(items, sales) == 3;
    RoasMeaning(Record(d, subject, 100.0, 0, sales, 0.0, 0.0, 0.0, 0.0, 0.0), 150.0, 3, 0.0);
    RoasMeaning(Record(d, subject, 100.0, 0, sales, 0.0, 0.0, 0.0, 0.0, 0.0), 150.0, 3, 10.0);
  }
}
