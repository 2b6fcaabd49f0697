/**
  The ad verdicts of the testing phase (`analizar_sugerencias_anuncios`):
  the testing records are grouped by ad, each group is put in date order,
  and the ad is classified from its cumulative net ROAS, its total
  investment and its current streak of days with principal sales.
 */
module Classifier {
  import opened Base
  import opened Calendar
  import opened Records
  import opened Metrics
  import opened Folds

  /** Below this cumulative net ROAS an ad with spend is switched off. */
  const KillBelow: real := 1.2
  /** From this cumulative net ROAS on an ad may be a winner ... */
  const WinnerFrom: real := 1.7
  /** ... when its streak of selling days is at least this long. */
  const WinnerStreak: nat := 4

  /** The suggestion shown for an ad, with the figures it quotes. */
  datatype Verdict =
    | Kill(roas: real)
    | Winner(roas: real, streak: nat)
    | Testing(roas: real, streak: nat)

  /** The three-way rule, in the order the source tries it. */
  function Classify(roas: real, investment: real, streak: nat): (v: Verdict)
    ensures v.roas == roas
  {
    if roas < KillBelow && investment > 0.0 then Kill(roas)
    else if roas >= WinnerFrom && streak >= WinnerStreak then Winner(roas, streak)
    else Testing(roas, streak)
  }

  /** The thresholds at their edges: 1.2 itself is not switched off, 1.7
      with four selling days is a winner, and an ad without spend is never
      switched off, whatever its ratio. */
  lemma ClassifyThresholds()
    ensures Classify(1.2, 100.0, 0) == Testing(1.2, 0)
    ensures Classify(1.19, 100.0, 0) == Kill(1.19)
    ensures Classify(1.7, 100.0, 4) == Winner(1.7, 4)
    ensures Classify(1.7, 100.0, 3) == Testing(1.7, 3)
    ensures Classify(1.69, 100.0, 10) == Testing(1.69, 10)
    ensures Classify(-5.0, 0.0, 0) == Testing(-5.0, 0)
  {
  }

  /** A better ratio never turns a winner into something else, and a worse
      one never rescues an ad that is switched off. */
  lemma ClassifyMonotone(roas: real, better: real, investment: real, streak: nat)
    requires roas <= better
    ensures Classify(roas, investment, streak).Winner? ==> Classify(better, investment, streak).Winner?
    ensures Classify(better, investment, streak).Kill? ==> Classify(roas, investment, streak).Kill?
  {
  }

  // ----- date order -----

  predicate SortedByDate(s: seq<Record>) {
    forall i, j :: 0 <= i < j < |s| ==> DateLe(s[i].date, s[j].date)
  }

  /** Places a record after every record of a sorted sequence dated on or
      before it. */
  function InsertByDate(s: seq<Record>, x: Record): (r: seq<Record>)
    ensures multiset(r) == multiset(s) + multiset{x}
    decreases |s|
  {
    if s == [] || DateLe(s[|s| - 1].date, x.date) then s + [x]
    else
      var init, last := s[..|s| - 1], s[|s| - 1];
      assert s == init + [last];
      InsertByDate(init, x) + [last]
  }

  /** `sort_values(by='Fecha')`, keeping records of the same date in their
      table order. */
  function SortByDate(rs: seq<Record>): (r: seq<Record>)
    ensures multiset(r) == multiset(rs)
    decreases |rs|
  {
    if rs == [] then []
    else
      assert rs == rs[..|rs| - 1] + [rs[|rs| - 1]];
      InsertByDate(SortByDate(rs[..|rs| - 1]), rs[|rs| - 1])
  }

  lemma {:induction false} InsertKeepsSorted(s: seq<Record>, x: Record)
    requires SortedByDate(s)
    ensures SortedByDate(InsertByDate(s, x))
    decreases |s|
  {
    if s != [] && !DateLe(s[|s| - 1].date, x.date) {
      var init, last := s[..|s| - 1], s[|s| - 1];
      InsertKeepsSorted(init, x);
      var r := InsertByDate(init, x);
      forall i | 0 <= i < |r| ensures DateLe(r[i].date, last.date) {
        assert r[i] in multiset(r);
        if r[i] != x {
          assert r[i] in multiset(init);
          var k :| 0 <= k < |init| && init[k] == r[i];
          assert s[k] == r[i];
        }
      }
    }
  }

  /** The date order is sorted and a permutation of the group. */
  lemma {:induction false} SortByDateSorted(rs: seq<Record>)
    ensures SortedByDate(SortByDate(rs))
    decreases |rs|
  {
    if rs != [] {
      SortByDateSorted(rs[..|rs| - 1]);
      InsertKeepsSorted(SortByDate(rs[..|rs| - 1]), rs[|rs| - 1]);
    }
  }

  // ----- the streak -----

  /** The number of records at the end of `rs` that each hold principal
      sales. */
  function Streak(rs: seq<Record>): (n: nat)
    ensures n <= |rs|
    decreases |rs|
  {
    if rs == [] || PpCount(rs[|rs| - 1]) <= 0 then 0 else Streak(rs[..|rs| - 1]) + 1
  }

  /** The streak loop: walk the records from the latest back and count until
      the first one without principal sales. */
  method SalesStreak(rs: seq<Record>) returns (n: nat)
    ensures n <= |rs|
    ensures forall k :: |rs| - n <= k < |rs| ==> PpCount(rs[k]) > 0
    ensures n < |rs| ==> PpCount(rs[|rs| - 1 - n]) <= 0
    ensures n == Streak(rs)
  {
    n := 0;
    while n < |rs|
      invariant n <= |rs|
      invariant forall k :: |rs| - n <= k < |rs| ==> PpCount(rs[k]) > 0
    {
      if PpCount(rs[|rs| - 1 - n]) > 0 {
        n := n + 1;
      } else {
        break;
      }
    }
    StreakUnique(rs, n);
  }

  /** The streak is the only count with a selling run of that length at the
      end and no selling day just before it. */
  lemma {:induction false} StreakUnique(rs: seq<Record>, n: nat)
    requires n <= |rs|
    requires forall k :: |rs| - n <= k < |rs| ==> PpCount(rs[k]) > 0
    requires n < |rs| ==> PpCount(rs[|rs| - 1 - n]) <= 0
    ensures n == Streak(rs)
    decreases |rs|
  {
    if rs != [] && PpCount(rs[|rs| - 1]) > 0 {
      var init := rs[..|rs| - 1];
      assert forall k :: 0 <= k < |init| ==> init[k] == rs[k];
      StreakUnique(init, n - 1);
    }
  }

  // ----- the verdict of one ad -----

  /** The cumulative net ROAS: with spend and a selected offer, total revenue
      less the commission on total principal sales, over total spend;
      otherwise the plain sum of the per-record net ROAS values. */
  function CumulativeRoas(group: seq<Record>, commission: Option<real>): real {
    RoasOfTotals(Sum(group, InvestmentOf), Sum(group, RevenueOf), Sum(group, PpSoldOf),
                 Sum(group, NetRoasOf), commission)
  }

  /** The cumulative net ROAS from a group's column totals. */
  function RoasOfTotals(investment: real, revenue: real, ppSold: real, netRoasSum: real,
                        commission: Option<real>): real
  {
    if investment > 0.0 && commission.Some? then (revenue - ppSold * commission.value) / investment
    else netRoasSum
  }

  /** The verdict of one ad's records. */
  function VerdictFor(group: seq<Record>, commission: Option<real>): Verdict {
    var sorted := SortByDate(group);
    Classify(CumulativeRoas(sorted, commission), Sum(sorted, InvestmentOf), Streak(sorted))
  }

  /** Sorting never changes the ratio or the spend: only the streak depends
      on the date order. */
  lemma VerdictFigures(group: seq<Record>, commission: Option<real>)
    ensures var v := VerdictFor(group, commission);
      var sorted := SortByDate(group);
      && v == Classify(CumulativeRoas(group, commission), Sum(group, InvestmentOf), Streak(sorted))
  {
    var sorted := SortByDate(group);
    SumPermutation(sorted, group, InvestmentOf);
    SumPermutation(sorted, group, RevenueOf);
    SumPermutation(sorted, group, PpSoldOf);
    SumPermutation(sorted, group, NetRoasOf);
  }

  /** An ad that spent nothing is still being tested, never switched off and
      never a winner, when every record keeps the "ROAS is 0 without
      investment" rule. */
  lemma ZeroInvestmentTesting(group: seq<Record>, commission: Option<real>)
    requires forall r :: r in group ==> r.investment >= 0.0 && (r.investment == 0.0 ==> r.netRoas == 0.0)
    requires Sum(group, InvestmentOf) == 0.0
    ensures VerdictFor(group, commission) == Testing(0.0, Streak(SortByDate(group)))
  {
    VerdictFigures(group, commission);
    SumNonnegative(group, InvestmentOf);
    assert forall i :: 0 <= i < |group| ==> group[i] in group;
    SumOfZeros(group, NetRoasOf);
  }

  /** On a single record with spend whose metrics were derived with the
      same commission, the two ROAS formulas agree. */
  lemma FormulasAgreeOnOneRecord(r: Record, gross: real, commission: real)
    requires r.investment > 0.0
    ensures var m := Derive(r, gross, PpCount(r), commission);
      CumulativeRoas([m], Some(commission)) == CumulativeRoas([m], None)
  {
    var m := Derive(r, gross, PpCount(r), commission);
    SumSingle(m, InvestmentOf);
    SumSingle(m, RevenueOf);
    SumSingle(m, PpSoldOf);
    SumSingle(m, NetRoasOf);
  }

  /** Over several records the fallback formula adds up ratios: two days of
      100 spent and 200 earned give 4.0 by the fallback but 2.0 by the
      revenue ratio. */
  lemma FormulasDisagree(d1: Date, d2: Date)
    ensures var r1 := Record(d1, "Ad", 100.0, 0, map[], 200.0, 100.0, 100.0, 2.0, 2.0);
      var r2 := Record(d2, "Ad", 100.0, 0, map[], 200.0, 100.0, 100.0, 2.0, 2.0);
      && CumulativeRoas([r1, r2], None) == 4.0
      && CumulativeRoas([r1, r2], Some(0.0)) == 2.0
  {
    var r1 := Record(d1, "Ad", 100.0, 0, map[], 200.0, 100.0, 100.0, 2.0, 2.0);
    var r2 := Record(d2, "Ad", 100.0, 0, map[], 200.0, 100.0, 100.0, 2.0, 2.0);
    assert [r1, r2][..1] == [r1];
    SumSingle(r1, InvestmentOf);
    SumSingle(r1, RevenueOf);
    SumSingle(r1, PpSoldOf);
    SumSingle(r1, NetRoasOf);
  }

  // ----- all ads -----

  /** The verdict of one ad's records, as the loop body computes it: sort,
      add up, count the streak, classify. */
  method AnalyzeAd(group: seq<Record>, commission: Option<real>) returns (v: Verdict)
    ensures v == VerdictFor(group, commission)
  {
    var sorted := SortByDate(group);
    var investment := Sum(sorted, InvestmentOf);
    var roas := CumulativeRoas(sorted, commission);
    var streak := SalesStreak(sorted);
    v := Classify(roas, investment, streak);
  }

  /** One verdict per ad of the testing records; no records, no verdicts. */
  method AnalyzeAds(rs: seq<Record>, commission: Option<real>) returns (verdicts: map<string, Verdict>)
    ensures forall k :: k in verdicts <==> exists i :: 0 <= i < |rs| && rs[i].subject == k
    ensures forall k :: k in verdicts ==> verdicts[k] == VerdictFor(Select(rs, SubjectOf, k), commission)
  {
    verdicts := map[];
    if rs == [] {
      return;
    }
    var ads := GroupKeys(rs, SubjectOf);
    for j := 0 to |ads|
      invariant forall k :: k in verdicts <==> k in ads[..j]
      invariant forall k :: k in verdicts ==> verdicts[k] == VerdictFor(Select(rs, SubjectOf, k), commission)
    {
      var v := AnalyzeAd(Select(rs, SubjectOf, ads[j]), commission);
      PrefixGrows(ads, j);
      verdicts := verdicts[ads[j] := v];
    }
    assert ads[..|ads|] == ads;
    assert forall k :: k in ads <==> exists i :: 0 <= i < |rs| && SubjectOf(rs[i]) == k;
  }

  /** One more element of a prefix: the longer prefix holds what the shorter
      one holds and that element. */
  lemma PrefixGrows<T>(s: seq<T>, j: nat)
    requires j < |s|
    ensures forall x :: x in s[..j + 1] <==> x in s[..j] || x == s[j]
  {
    assert s[..j + 1] == s[..j] + [s[j]];
  }
}
