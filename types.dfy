/**
 The records the dashboard store works on: products, the derived metrics,
 audit log entries, user roles and the visibility toggles of the dashboard
 sections. Monetary amounts and percentages are exact `real`s.
 */
module DashboardTypes {

  datatype Option<+T> = None | Some(value: T)

  datatype Role = Admin | Analyst | Viewer

  /** A catalogue record. `id` is the identity; every other field is editable. */
  datatype Product = Product(
    id: string,
    sku: string,
    name: string,
    category: string,
    price: real,
    stock: real,
    sales: real,
    conversionRate: real)

  /** One day of the synthetic revenue series; `day` is a day number (today is the last). */
  datatype HistoryPoint = HistoryPoint(day: int, revenue: real)

  datatype CategoryValue = CategoryValue(category: string, value: real)

  datatype Metrics = Metrics(
    revenue: real,
    aov: real,
    conversionRate: real,
    revenueHistory: seq<HistoryPoint>,
    categoryBreakdown: seq<CategoryValue>)

  /** The old and new value of an audited field: product text fields or numbers. */
  datatype FieldValue = Text(text: string) | Number(number: real)

  /** An audit log entry, without its generated id and timestamp. */
  datatype AuditEntry = AuditEntry(
    user: string,
    action: string,
    field: string,
    oldValue: FieldValue,
    newValue: FieldValue,
    reason: string)

  /** The sections whose visibility the dashboard can toggle. */
  datatype Section =
    | KpiCards | RevenueChart | CategoryPieChart | CategoryBarChart | ProductsTable | AnalyticsCharts

  datatype Visibility = Visibility(
    kpiCards: bool,
    revenueChart: bool,
    categoryPieChart: bool,
    categoryBarChart: bool,
    productsTable: bool,
    analyticsCharts: bool)

  function Shown(v: Visibility, s: Section): bool
  {
    match s
    case KpiCards => v.kpiCards
    case RevenueChart => v.revenueChart
    case CategoryPieChart => v.categoryPieChart
    case CategoryBarChart => v.categoryBarChart
    case ProductsTable => v.productsTable
    case AnalyticsCharts => v.analyticsCharts
  }

  /** The visibility after flipping section `s`: exactly that flag changes. */
  function Flip(v: Visibility, s: Section): (r: Visibility)
    ensures Shown(r, s) == !Shown(v, s)
    ensures forall t :: t != s ==> Shown(r, t) == Shown(v, t)
  {
    match s
    case KpiCards => v.(kpiCards := !v.kpiCards)
    case RevenueChart => v.(revenueChart := !v.revenueChart)
    case CategoryPieChart => v.(categoryPieChart := !v.categoryPieChart)
    case CategoryBarChart => v.(categoryBarChart := !v.categoryBarChart)
    case ProductsTable => v.(productsTable := !v.productsTable)
    case AnalyticsCharts => v.(analyticsCharts := !v.analyticsCharts)
  }

  /** Flipping the same section twice gives back the original visibility. */
  lemma FlipInvolution(v: Visibility, s: Section)
    ensures Flip(Flip(v, s), s) == v
  {
  }

  function Ids(ps: seq<Product>): (r: seq<string>)
    ensures |r| == |ps|
    ensures forall i :: 0 <= i < |ps| ==> r[i] == ps[i].id
  {
    seq(|ps|, i requires 0 <= i < |ps| => ps[i].id)
  }

  ghost predicate DistinctIds(ps: seq<Product>)
  {
    forall i, j :: 0 <= i < j < |ps| ==> ps[i].id != ps[j].id
  }

  function Categories(ps: seq<Product>): (r: seq<string>)
    ensures |r| == |ps|
    ensures forall i :: 0 <= i < |ps| ==> r[i] == ps[i].category
  {
    seq(|ps|, i requires 0 <= i < |ps| => ps[i].category)
  }
}
