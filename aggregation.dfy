/**
 The aggregation behind the dashboard's KPIs and charts: `calculateMetrics`
 turns the product list into revenue, average order value, mean conversion
 rate, a 30-day synthetic revenue series and a revenue total per category.

 The calls to `Math.random()` and the current date are parameters: `draws`
 holds the thirty random values, `today` the day number of the last day.
 */
module Aggregation {
  import opened DashboardTypes

  /** The length of the synthetic revenue series, in days. */
  const HistoryDays: nat := 30

  /** `Math.round(x * 100) / 100`: the nearest hundredth, halves rounded upward. */
  function Round2(x: real): (r: real)
    ensures x - 0.005 < r <= x + 0.005
  {
    var k := (x * 100.0 + 0.5).Floor;
    assert k as real <= x * 100.0 + 0.5 < k as real + 1.0;
    k as real / 100.0
  }

  /** A value that is already a whole number of hundredths is left as it is. */
  lemma Round2Hundredths(k: int)
    ensures Round2(k as real / 100.0) == k as real / 100.0
  {
    var y := k as real / 100.0 * 100.0 + 0.5;
    assert y == k as real + 0.5;
    assert y.Floor == k;
  }

  /** Rounding an already rounded value changes nothing. */
  lemma Round2Idempotent(x: real)
    ensures Round2(Round2(x)) == Round2(x)
  {
    Round2Hundredths((x * 100.0 + 0.5).Floor);
  }

  // ----- left folds over the product list, as `Array.prototype.reduce` runs them -----

  function SumOf(ps: seq<Product>, f: Product -> real): real
  {
    if ps == [] then 0.0 else SumOf(ps[..|ps| - 1], f) + f(ps[|ps| - 1])
  }

  function LineRevenue(p: Product): real { p.price * p.sales }
  function Sales(p: Product): real { p.sales }
  function Conversion(p: Product): real { p.conversionRate }

  /** Unrounded total revenue: the sum of price times sales. */
  function Revenue(ps: seq<Product>): real { SumOf(ps, LineRevenue) }

  function TotalSales(ps: seq<Product>): real { SumOf(ps, Sales) }

  /** Unrounded average order value; zero when nothing has been sold. */
  function AverageOrderValue(ps: seq<Product>): real
  {
    var totalSales := TotalSales(ps);
    if totalSales > 0.0 then Revenue(ps) / totalSales else 0.0
  }

  /** Unrounded mean conversion rate; the source divides by the list length unguarded. */
  function MeanConversion(ps: seq<Product>): real
    requires |ps| > 0
  {
    SumOf(ps, Conversion) / |ps| as real
  }

  /** The products of category `c`, in list order (`products.filter(p => p.category === c)`). */
  function InCategory(ps: seq<Product>, c: string): (r: seq<Product>)
    ensures forall p :: p in r <==> p in ps && p.category == c
    ensures |r| <= |ps|
  {
    if ps == [] then []
    else
      var rest := InCategory(ps[..|ps| - 1], c);
      if ps[|ps| - 1].category == c then rest + [ps[|ps| - 1]] else rest
  }

  /**
   The filter keeps each product of category `c` as many times as the list has it
   and drops every other product, so its length is the number of such products.
   */
  lemma {:induction false} InCategoryCounts(ps: seq<Product>, c: string)
    ensures forall p :: multiset(InCategory(ps, c))[p] == if p.category == c then multiset(ps)[p] else 0
  {
    if ps != [] {
      var n := |ps| - 1;
      InCategoryCounts(ps[..n], c);
      assert ps == ps[..n] + [ps[n]];
      assert multiset(ps) == multiset(ps[..n]) + multiset{ps[n]};
    }
  }

  /** A category that occurs in the list has at least one product. */
  lemma InCategoryNonEmpty(ps: seq<Product>, c: string)
    requires c in Categories(ps)
    ensures |InCategory(ps, c)| > 0
  {
    var i :| 0 <= i < |ps| && Categories(ps)[i] == c;
    assert ps[i] in InCategory(ps, c);
  }

  /** One more term between `lo` and `hi` keeps a sum of `k` such terms within bounds. */
  lemma AddBounded(k: real, s: real, x: real, k': real, s': real, lo: real, hi: real)
    requires k * lo <= s <= k * hi && lo <= x <= hi
    requires k' == k + 1.0 && s' == s + x
    ensures k' * lo <= s' <= k' * hi
  {
    assert k' * lo == k * lo + lo;
    assert k' * hi == k * hi + hi;
  }

  /** One more product of price `p` in [lo, hi] and `u` units keeps revenue within the weighted bounds. */
  lemma AddWeighted(t: real, r: real, p: real, u: real, t': real, r': real, lo: real, hi: real)
    requires u >= 0.0 && lo <= p <= hi && lo * t <= r <= hi * t
    requires t' == t + u && r' == r + p * u
    ensures lo * t' <= r' <= hi * t'
  {
    assert (p - lo) * u >= 0.0;
    assert (hi - p) * u >= 0.0;
    assert lo * t' == lo * t + lo * u;
    assert hi * t' == hi * t + hi * u;
  }

  /** A quotient by a positive `n` of a value between `n * lo` and `n * hi` lies between `lo` and `hi`. */
  lemma DivideBounded(s: real, n: real, lo: real, hi: real)
    requires n > 0.0 && n * lo <= s <= n * hi
    ensures lo <= s / n <= hi
  {
    var q := s / n;
    assert q * n == s;
    assert (q - lo) * n >= 0.0;
    assert (hi - q) * n >= 0.0;
  }

  /** The bounds of a sum whose terms all lie between `lo` and `hi`. */
  lemma {:induction false} SumOfBounds(ps: seq<Product>, f: Product -> real, lo: real, hi: real)
    requires forall p :: p in ps ==> lo <= f(p) <= hi
    ensures |ps| as real * lo <= SumOf(ps, f) <= |ps| as real * hi
  {
    if ps != [] {
      var n := |ps| - 1;
      var init := ps[..n];
      assert forall p :: p in init ==> p in ps;
      SumOfBounds(init, f, lo, hi);
      assert ps[n] in ps;
      assert SumOf(ps, f) == SumOf(init, f) + f(ps[n]);
      AddBounded(n as real, SumOf(init, f), f(ps[n]), |ps| as real, SumOf(ps, f), lo, hi);
    }
  }

  /** The mean of values that all lie between `lo` and `hi` lies between them too. */
  lemma MeanBounds(ps: seq<Product>, f: Product -> real, lo: real, hi: real)
    requires |ps| > 0
    requires forall p :: p in ps ==> lo <= f(p) <= hi
    ensures lo <= SumOf(ps, f) / |ps| as real <= hi
  {
    SumOfBounds(ps, f, lo, hi);
    DivideBounded(SumOf(ps, f), |ps| as real, lo, hi);
  }

  /** Revenue lies between the lowest and the highest price times the units sold. */
  lemma {:induction false} RevenueWeightedByPrice(ps: seq<Product>, lo: real, hi: real)
    requires forall p :: p in ps ==> p.sales >= 0.0 && lo <= p.price <= hi
    ensures lo * TotalSales(ps) <= Revenue(ps) <= hi * TotalSales(ps)
  {
    if ps != [] {
      var n := |ps| - 1;
      var q, init := ps[n], ps[..n];
      assert forall p :: p in init ==> p in ps;
      RevenueWeightedByPrice(init, lo, hi);
      assert q in ps;
      assert Revenue(ps) == Revenue(init) + q.price * q.sales;
      assert TotalSales(ps) == TotalSales(init) + q.sales;
      AddWeighted(TotalSales(init), Revenue(init), q.price, q.sales, TotalSales(ps), Revenue(ps), lo, hi);
    }
  }

  /**
   The average order value is a sales-weighted mean price: when sales are not
   negative and some units were sold, it lies between the lowest and the highest price.
   */
  lemma AverageOrderValueWithinPrices(ps: seq<Product>, lo: real, hi: real)
    requires forall p :: p in ps ==> p.sales >= 0.0 && lo <= p.price <= hi
    requires TotalSales(ps) > 0.0
    ensures lo <= AverageOrderValue(ps) <= hi
  {
    RevenueWeightedByPrice(ps, lo, hi);
    DivideBounded(Revenue(ps), TotalSales(ps), lo, hi);
  }

  /** The mean conversion rate lies between the lowest and the highest product rate. */
  lemma MeanConversionWithinRates(ps: seq<Product>, lo: real, hi: real)
    requires |ps| > 0
    requires forall p :: p in ps ==> lo <= p.conversionRate <= hi
    ensures lo <= MeanConversion(ps) <= hi
  {
    MeanBounds(ps, Conversion, lo, hi);
  }

  // ----- the synthetic revenue history -----

  /** Thirty values as `Math.random()` returns them: each in [0, 1). */
  predicate ValidDraws(draws: seq<real>)
  {
    |draws| == HistoryDays && forall i :: 0 <= i < |draws| ==> 0.0 <= draws[i] < 1.0
  }

  function DailyRevenue(revenue: real, draw: real): real
  {
    revenue / 30.0 * (0.8 + draw * 0.4)
  }

  function RevenueHistory(revenue: real, today: int, draws: seq<real>): (h: seq<HistoryPoint>)
    requires |draws| == HistoryDays
    ensures |h| == HistoryDays
    ensures forall i :: 0 <= i < HistoryDays ==> h[i].day == today - (HistoryDays - 1 - i)
  {
    seq(HistoryDays, i requires 0 <= i < HistoryDays =>
      HistoryPoint(today - (HistoryDays - 1 - i), Round2(DailyRevenue(revenue, draws[i]))))
  }

  /** Each synthetic day's revenue is the daily mean scaled by a factor in [0.8, 1.2). */
  lemma DailyRevenueBand(revenue: real, draw: real)
    requires revenue >= 0.0 && 0.0 <= draw < 1.0
    ensures 0.8 * (revenue / 30.0) <= DailyRevenue(revenue, draw) <= 1.2 * (revenue / 30.0)
  {
    var m := revenue / 30.0;
    assert m >= 0.0;
    assert m * (0.8 + draw * 0.4) - 0.8 * m == m * (draw * 0.4);
    assert 1.2 * m - m * (0.8 + draw * 0.4) == m * ((1.0 - draw) * 0.4);
    assert m * (draw * 0.4) >= 0.0;
    var w := (1.0 - draw) * 0.4;
    assert w > 0.0;
    assert m * w >= 0.0;
  }

  // ----- the category breakdown -----

  function CategoryKeys(cs: seq<CategoryValue>): (r: seq<string>)
    ensures |r| == |cs|
    ensures forall i :: 0 <= i < |cs| ==> r[i] == cs[i].category
  {
    if cs == [] then [] else [cs[0].category] + CategoryKeys(cs[1..])
  }

  ghost predicate NoDuplicates(s: seq<string>)
  {
    forall i, j :: 0 <= i < j < |s| ==> s[i] != s[j]
  }

  /** The distinct entries of `s` in order of first appearance (a JavaScript `Set` or `Map`'s key order). */
  function Distinct(s: seq<string>): (d: seq<string>)
    ensures forall x :: x in d <==> x in s
    ensures NoDuplicates(d)
  {
    if s == [] then []
    else
      var d := Distinct(s[..|s| - 1]);
      var x := s[|s| - 1];
      assert forall y :: y in s[..|s| - 1] ==> y in s;
      assert forall y :: y in s ==> y in s[..|s| - 1] || y == x;
      if x in d then d else d + [x]
  }

  /** The position where `x` first occurs in `s`. */
  function FirstIndex(s: seq<string>, x: string): (k: nat)
    requires x in s
    ensures k < |s| && s[k] == x && x !in s[..k]
  {
    var n := |s| - 1;
    if x in s[..n] then
      var k := FirstIndex(s[..n], x);
      assert s[..n][..k] == s[..k];
      k
    else
      n
  }

  /** `Distinct` lists the categories in the order in which they first occur. */
  lemma {:induction false} DistinctInFirstAppearanceOrder(s: seq<string>)
    ensures forall i, j :: 0 <= i < j < |Distinct(s)| ==>
      FirstIndex(s, Distinct(s)[i]) < FirstIndex(s, Distinct(s)[j])
  {
    if s != [] {
      var n := |s| - 1;
      var init := s[..n];
      DistinctInFirstAppearanceOrder(init);
      var d := Distinct(init);
      if s[n] in d {
        assert Distinct(s) == d;
        forall i, j | 0 <= i < j < |d|
          ensures FirstIndex(s, d[i]) < FirstIndex(s, d[j])
        {
          EarlierFirstIndex(s, d[i]);
          EarlierFirstIndex(s, d[j]);
        }
      } else {
        assert s[n] !in init;
        var e := d + [s[n]];
        assert Distinct(s) == e;
        forall i, j | 0 <= i < j < |e|
          ensures FirstIndex(s, e[i]) < FirstIndex(s, e[j])
        {
          assert e[i] == d[i];
          EarlierFirstIndex(s, d[i]);
          if j < |d| {
            assert e[j] == d[j];
            EarlierFirstIndex(s, d[j]);
          }
        }
      }
    }
  }

  /** A value that occurs before the last position is first found there, as in the prefix. */
  lemma EarlierFirstIndex(s: seq<string>, y: string)
    requires s != [] && y in Distinct(s[..|s| - 1])
    ensures y in s && FirstIndex(s, y) == FirstIndex(s[..|s| - 1], y) < |s| - 1
  {
    var k := FirstIndex(s[..|s| - 1], y);
    assert s[k] == y;
  }

  /** The current total of category `k` (`categoryMap.get(k) || 0`). */
  function Lookup(acc: seq<CategoryValue>, k: string): real
  {
    if acc == [] then 0.0
    else if acc[0].category == k then acc[0].value
    else Lookup(acc[1..], k)
  }

  function SumValues(cs: seq<CategoryValue>): real
  {
    if cs == [] then 0.0 else cs[0].value + SumValues(cs[1..])
  }

  /**
   `categoryMap.set(c, (categoryMap.get(c) || 0) + v)`: the entry of `c` grows by `v`,
   or a new entry is appended at the end when `c` has none.
   */
  function AddToCategory(acc: seq<CategoryValue>, c: string, v: real): (r: seq<CategoryValue>)
    ensures CategoryKeys(r) == if c in CategoryKeys(acc) then CategoryKeys(acc) else CategoryKeys(acc) + [c]
  {
    if acc == [] then [CategoryValue(c, v)]
    else if acc[0].category == c then
      var r := [acc[0].(value := acc[0].value + v)] + acc[1..];
      assert CategoryKeys(r) == CategoryKeys(acc);
      r
    else
      var tail := AddToCategory(acc[1..], c, v);
      assert CategoryKeys(acc) == [acc[0].category] + CategoryKeys(acc[1..]);
      assert CategoryKeys([acc[0]] + tail) == [acc[0].category] + CategoryKeys(tail);
      [acc[0]] + tail
  }

  /** Only the entry of `c` changes, and it grows by exactly `v`. */
  lemma {:induction false} AddToCategoryLookup(acc: seq<CategoryValue>, c: string, v: real, k: string)
    ensures Lookup(AddToCategory(acc, c, v), k) == Lookup(acc, k) + (if k == c then v else 0.0)
  {
    if acc != [] && acc[0].category != c {
      AddToCategoryLookup(acc[1..], c, v, k);
      var r := AddToCategory(acc, c, v);
      assert r[0] == acc[0] && r[1..] == AddToCategory(acc[1..], c, v);
    } else if acc != [] {
      var r := AddToCategory(acc, c, v);
      assert r[1..] == acc[1..];
    }
  }

  /** The grand total grows by exactly `v`. */
  lemma {:induction false} AddToCategorySum(acc: seq<CategoryValue>, c: string, v: real)
    ensures SumValues(AddToCategory(acc, c, v)) == SumValues(acc) + v
  {
    if acc != [] && acc[0].category != c {
      AddToCategorySum(acc[1..], c, v);
      var r := AddToCategory(acc, c, v);
      assert r[0] == acc[0] && r[1..] == AddToCategory(acc[1..], c, v);
    } else if acc != [] {
      var r := AddToCategory(acc, c, v);
      assert r[1..] == acc[1..];
    }
  }

  /** The unrounded category totals, in the order the `forEach` loop first meets each category. */
  function CategoryTotals(ps: seq<Product>): seq<CategoryValue>
  {
    if ps == [] then []
    else
      var q := ps[|ps| - 1];
      AddToCategory(CategoryTotals(ps[..|ps| - 1]), q.category, LineRevenue(q))
  }

  /**
   The breakdown as reported: one entry per distinct category in first-appearance
   order, each the revenue of that category's products rounded to cents.
   */
  function Breakdown(ps: seq<Product>): (r: seq<CategoryValue>)
    ensures CategoryKeys(r) == Distinct(Categories(ps))
    ensures forall j :: 0 <= j < |r| ==> r[j].value == Round2(Revenue(InCategory(ps, r[j].category)))
  {
    var t := CategoryTotals(ps);
    CategoryTotalsKeys(ps);
    CategoryTotalsValue(ps);
    var r := seq(|t|, i requires 0 <= i < |t| => CategoryValue(t[i].category, Round2(t[i].value)));
    assert CategoryKeys(r) == CategoryKeys(t);
    r
  }

  /** One entry per distinct category, in first-appearance order. */
  lemma {:induction false} CategoryTotalsKeys(ps: seq<Product>)
    ensures CategoryKeys(CategoryTotals(ps)) == Distinct(Categories(ps))
  {
    if ps != [] {
      var n := |ps| - 1;
      CategoryTotalsKeys(ps[..n]);
      assert Categories(ps)[..n] == Categories(ps[..n]);
    }
  }

  /** Each category's total is the revenue of that category's products. */
  lemma {:induction false} CategoryTotalsLookup(ps: seq<Product>, k: string)
    ensures Lookup(CategoryTotals(ps), k) == Revenue(InCategory(ps, k))
  {
    if ps != [] {
      var n := |ps| - 1;
      CategoryTotalsLookup(ps[..n], k);
      AddToCategoryLookup(CategoryTotals(ps[..n]), ps[n].category, LineRevenue(ps[n]), k);
      var rest := InCategory(ps[..n], k);
      if ps[n].category == k {
        assert (rest + [ps[n]])[..|rest|] == rest;
      }
    }
  }

  /** The category totals add up to the total revenue. */
  lemma {:induction false} CategoryTotalsSum(ps: seq<Product>)
    ensures SumValues(CategoryTotals(ps)) == Revenue(ps)
  {
    if ps != [] {
      var n := |ps| - 1;
      CategoryTotalsSum(ps[..n]);
      AddToCategorySum(CategoryTotals(ps[..n]), ps[n].category, LineRevenue(ps[n]));
    }
  }

  lemma {:induction false} LookupFirst(cs: seq<CategoryValue>, j: nat)
    requires j < |cs| && NoDuplicates(CategoryKeys(cs))
    ensures Lookup(cs, cs[j].category) == cs[j].value
  {
    if j > 0 {
      assert CategoryKeys(cs)[0] != CategoryKeys(cs)[j];
      assert CategoryKeys(cs[1..]) == CategoryKeys(cs)[1..];
      LookupFirst(cs[1..], j - 1);
    }
  }

  /**
   The entry at position `j` of the category totals is the sum of price times
   sales over exactly the products of that category.
   */
  lemma CategoryTotalsValue(ps: seq<Product>)
    ensures forall j :: 0 <= j < |CategoryTotals(ps)| ==>
      CategoryTotals(ps)[j].value == Revenue(InCategory(ps, CategoryTotals(ps)[j].category))
  {
    var t := CategoryTotals(ps);
    CategoryTotalsKeys(ps);
    forall j | 0 <= j < |t|
      ensures t[j].value == Revenue(InCategory(ps, t[j].category))
    {
      LookupFirst(t, j);
      CategoryTotalsLookup(ps, t[j].category);
    }
  }

  /** `calculateMetrics`: the KPIs are rounded to cents; the list must not be empty. */
  function CalculateMetrics(ps: seq<Product>, today: int, draws: seq<real>): (m: Metrics)
    requires |ps| > 0
    requires ValidDraws(draws)
    ensures |m.revenueHistory| == HistoryDays
    ensures forall i :: 0 <= i < HistoryDays ==> m.revenueHistory[i].day == today - (HistoryDays - 1 - i)
    ensures CategoryKeys(m.categoryBreakdown) == Distinct(Categories(ps))
    ensures forall j :: 0 <= j < |m.categoryBreakdown| ==>
      m.categoryBreakdown[j].value == Round2(Revenue(InCategory(ps, m.categoryBreakdown[j].category)))
    ensures TotalSales(ps) <= 0.0 ==> m.aov == 0.0
  {
    Round2Hundredths(0);
    var breakdown := Breakdown(ps);
    Metrics(
      Round2(Revenue(ps)),
      Round2(AverageOrderValue(ps)),
      Round2(MeanConversion(ps)),
      RevenueHistory(Revenue(ps), today, draws),
      breakdown)
  }

  /** When nothing is negative, every synthetic day lies in the band [0.8, 1.2] times the daily mean, up to rounding. */
  lemma HistoryWithinBand(ps: seq<Product>, today: int, draws: seq<real>, i: nat)
    requires |ps| > 0 && ValidDraws(draws) && i < HistoryDays
    requires Revenue(ps) >= 0.0
    ensures 0.8 * (Revenue(ps) / 30.0) - 0.005 < CalculateMetrics(ps, today, draws).revenueHistory[i].revenue
    ensures CalculateMetrics(ps, today, draws).revenueHistory[i].revenue <= 1.2 * (Revenue(ps) / 30.0) + 0.005
  {
    DailyRevenueBand(Revenue(ps), draws[i]);
  }
}
