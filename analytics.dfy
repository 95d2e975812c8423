/**
 The two derivations of the analytics page: the five products with the
 highest revenue (price times units sold), and the mean conversion rate of
 each category. Both read the working product list and change nothing.
 */
module Analytics {
  import opened DashboardTypes
  import opened Aggregation

  /** How many products the ranking shows. */
  const TopCount: nat := 5

  datatype TopProduct = TopProduct(name: string, revenue: real)

  datatype CategoryRate = CategoryRate(category: string, rate: real)

  /** `s` is ordered by non-increasing `key`. */
  ghost predicate NonIncreasing(s: seq<Product>, key: Product -> real)
  {
    forall i, j :: 0 <= i < j < |s| ==> key(s[j]) <= key(s[i])
  }

  /** Places `p` before the first product of lower key; `p` goes first among equals. */
  function Insert(p: Product, s: seq<Product>, key: Product -> real): (r: seq<Product>)
    ensures multiset(r) == multiset(s) + multiset{p}
    ensures |r| == |s| + 1
  {
    if s == [] || key(s[0]) <= key(p) then [p] + s
    else
      assert s == [s[0]] + s[1..];
      [s[0]] + Insert(p, s[1..], key)
  }

  /** Insertion leaves either `p` or the old first product at the front. */
  lemma InsertHead(p: Product, s: seq<Product>, key: Product -> real)
    ensures Insert(p, s, key)[0] == p || (s != [] && Insert(p, s, key)[0] == s[0])
  {
  }

  lemma {:induction false} InsertKeepsOrder(p: Product, s: seq<Product>, key: Product -> real)
    requires NonIncreasing(s, key)
    ensures NonIncreasing(Insert(p, s, key), key)
  {
    if s != [] && key(s[0]) > key(p) {
      var rest := Insert(p, s[1..], key);
      InsertKeepsOrder(p, s[1..], key);
      InsertHead(p, s[1..], key);
      assert key(rest[0]) <= key(s[0]) by {
        if s[1..] != [] && rest[0] == s[1..][0] {
          assert s[1..][0] == s[1];
        }
      }
      var r := [s[0]] + rest;
      assert r == Insert(p, s, key);
      forall i, j | 0 <= i < j < |r|
        ensures key(r[j]) <= key(r[i])
      {
        assert r[j] == rest[j - 1];
        if i > 0 {
          assert r[i] == rest[i - 1];
        } else if j > 1 {
          assert key(rest[j - 1]) <= key(rest[0]);
        }
      }
    }
  }

  /** A stable insertion sort by non-increasing `key`. */
  function SortDescending(ps: seq<Product>, key: Product -> real): (r: seq<Product>)
    ensures multiset(r) == multiset(ps)
    ensures NonIncreasing(r, key)
    ensures |r| == |ps|
  {
    if ps == [] then []
    else
      assert ps == [ps[0]] + ps[1..];
      InsertKeepsOrder(ps[0], SortDescending(ps[1..], key), key);
      Insert(ps[0], SortDescending(ps[1..], key), key)
  }

  /**
   A copy of the list in order of non-increasing revenue, products of equal
   revenue in list order: the stable comparison sort `(a, b) => b.sales * b.price - a.sales * a.price`.
   */
  function Ranked(ps: seq<Product>): (r: seq<Product>)
    ensures multiset(r) == multiset(ps)
    ensures forall i, j :: 0 <= i < j < |r| ==> LineRevenue(r[j]) <= LineRevenue(r[i])
    ensures |r| == |ps|
  {
    SortDescending(ps, LineRevenue)
  }

  /** In a sorted list, everything after position `k` has a key at most that of each of the first `k`. */
  lemma SortedTail(s: seq<Product>, key: Product -> real, k: nat)
    requires NonIncreasing(s, key) && k <= |s|
    ensures forall p, i :: p in multiset(s[k..]) && 0 <= i < k ==> key(p) <= key(s[i])
  {
    forall p, i | p in multiset(s[k..]) && 0 <= i < k
      ensures key(p) <= key(s[i])
    {
      var rest := s[k..];
      assert p in rest;
      var j :| 0 <= j < |rest| && rest[j] == p;
      assert s[k + j] == p;
    }
  }

  /** `topProducts`: the first five of the ranking, with their revenue. */
  function TopProducts(ps: seq<Product>): (r: seq<TopProduct>)
    ensures |r| == if |ps| < TopCount then |ps| else TopCount
    ensures forall i, j :: 0 <= i < j < |r| ==> r[j].revenue <= r[i].revenue
  {
    var s := Ranked(ps);
    var k := if |ps| < TopCount then |ps| else TopCount;
    seq(k, i requires 0 <= i < k => TopProduct(s[i].name, LineRevenue(s[i])))
  }

  /**
   Each shown entry is a different input product (as a multiset, the shown
   products are part of the input) and no product left out earns more than a shown one.
   */
  lemma TopProductsAreBest(ps: seq<Product>)
    ensures var s, k := Ranked(ps), |TopProducts(ps)|;
      && multiset(s[..k]) <= multiset(ps)
      && (forall i :: 0 <= i < k ==> TopProducts(ps)[i] == TopProduct(s[i].name, LineRevenue(s[i])))
      && (forall p, i :: p in multiset(ps) - multiset(s[..k]) && 0 <= i < k ==> LineRevenue(p) <= TopProducts(ps)[i].revenue)
  {
    var s, k := Ranked(ps), |TopProducts(ps)|;
    var top, rest := s[..k], s[k..];
    assert s == top + rest;
    assert multiset(ps) == multiset(top) + multiset(rest);
    assert multiset(ps) - multiset(top) == multiset(rest);
    SortedTail(s, LineRevenue, k);
    forall i | 0 <= i < k
      ensures TopProducts(ps)[i] == TopProduct(s[i].name, LineRevenue(s[i]))
    {
    }
  }

  /**
   The conversion-rate chart: one entry per distinct category, in order of
   first appearance, each the mean conversion rate of that category's products.
   */
  function CategoryRates(ps: seq<Product>): (r: seq<CategoryRate>)
    ensures |r| == |Distinct(Categories(ps))|
    ensures forall i :: 0 <= i < |r| ==> r[i].category == Distinct(Categories(ps))[i]
    ensures forall i :: 0 <= i < |r| ==> |InCategory(ps, r[i].category)| > 0
  {
    var cats := Distinct(Categories(ps));
    var r := seq(|cats|, i requires 0 <= i < |cats| => CategoryRate(cats[i], CategoryMean(ps, cats[i])));
    ListedCategoriesOccur(ps);
    r
  }

  lemma ListedCategoriesOccur(ps: seq<Product>)
    ensures forall c :: c in Distinct(Categories(ps)) ==> c in Categories(ps) && |InCategory(ps, c)| > 0
  {
    forall c | c in Distinct(Categories(ps))
      ensures c in Categories(ps) && |InCategory(ps, c)| > 0
    {
      InCategoryNonEmpty(ps, c);
    }
  }

  /** `filter(...).reduce(...) / filter(...).length` for a category that occurs in the list. */
  function CategoryMean(ps: seq<Product>, c: string): real
    requires c in Categories(ps)
  {
    InCategoryNonEmpty(ps, c);
    MeanConversion(InCategory(ps, c))
  }

  /** A category's rate lies between the lowest and the highest rate of its products. */
  lemma CategoryRateWithinRange(ps: seq<Product>, i: nat, lo: real, hi: real)
    requires i < |CategoryRates(ps)|
    requires forall p :: p in ps && p.category == CategoryRates(ps)[i].category ==> lo <= p.conversionRate <= hi
    ensures lo <= CategoryRates(ps)[i].rate <= hi
  {
    MeanConversionWithinRates(InCategory(ps, CategoryRates(ps)[i].category), lo, hi);
  }
}
