/**
 The dashboard store: a working product list with its metrics, the last
 confirmed copy of both, a newest-first audit log and the pending-changes,
 admin-mode and visibility flags. Edits are staged on the working copy;
 confirming logs the differences and promotes the working copy, discarding
 restores the confirmed one.
 */
module DashboardStore {
  import opened DashboardTypes
  import opened Aggregation
  import opened Audit

  const AdminUser: string := "admin@dashboard.com"

  /** An edit of some of a product's fields; the id cannot be edited. */
  datatype ProductUpdate = ProductUpdate(
    sku: Option<string>,
    name: Option<string>,
    category: Option<string>,
    price: Option<real>,
    stock: Option<real>,
    sales: Option<real>,
    conversionRate: Option<real>)

  /** An edit of some of the metrics' fields. */
  datatype MetricsUpdate = MetricsUpdate(
    revenue: Option<real>,
    aov: Option<real>,
    conversionRate: Option<real>,
    revenueHistory: Option<seq<HistoryPoint>>,
    categoryBreakdown: Option<seq<CategoryValue>>)

  function Pick<T>(edit: Option<T>, current: T): T
  {
    match edit
    case Some(v) => v
    case None => current
  }

  /** `{ ...p, ...updates }`: the fields present in the update replace the product's. */
  function Merge(p: Product, u: ProductUpdate): (r: Product)
    ensures r.id == p.id
  {
    Product(p.id, Pick(u.sku, p.sku), Pick(u.name, p.name), Pick(u.category, p.category),
      Pick(u.price, p.price), Pick(u.stock, p.stock), Pick(u.sales, p.sales),
      Pick(u.conversionRate, p.conversionRate))
  }

  /** Applying the same update twice is the same as applying it once. */
  lemma MergeIdempotent(p: Product, u: ProductUpdate)
    ensures Merge(Merge(p, u), u) == Merge(p, u)
  {
  }

  /** The product list after `updateProduct`: every product with the id gets the update. */
  function ApplyUpdate(ps: seq<Product>, id: string, u: ProductUpdate): (r: seq<Product>)
    ensures |r| == |ps| && Ids(r) == Ids(ps)
  {
    seq(|ps|, i requires 0 <= i < |ps| => if ps[i].id == id then Merge(ps[i], u) else ps[i])
  }

  lemma SameIdsStayDistinct(a: seq<Product>, b: seq<Product>)
    requires Ids(a) == Ids(b) && DistinctIds(b)
    ensures DistinctIds(a)
  {
    forall i, j | 0 <= i < j < |a|
      ensures a[i].id != a[j].id
    {
      assert a[i].id == Ids(b)[i] && a[j].id == Ids(b)[j];
    }
  }

  /** With distinct ids, an update changes at most the one product with that id. */
  lemma UpdateTouchesOnlyItsProduct(ps: seq<Product>, id: string, u: ProductUpdate)
    requires DistinctIds(ps)
    ensures forall i, j :: 0 <= i < j < |ps| && ApplyUpdate(ps, id, u)[i] != ps[i] ==> ApplyUpdate(ps, id, u)[j] == ps[j]
    ensures (forall p :: p in ps ==> p.id != id) ==> ApplyUpdate(ps, id, u) == ps
  {
  }

  /** The catalogue the store starts with. */
  function MockProducts(): (r: seq<Product>)
    ensures |r| == 10 && DistinctIds(r)
  {
    [ Product("1", "PRD-001", "Premium Headphones", "Electronics", 299.99, 150.0, 342.0, 4.2),
      Product("2", "PRD-002", "Wireless Mouse", "Electronics", 49.99, 450.0, 1205.0, 5.8),
      Product("3", "PRD-003", "Mechanical Keyboard", "Electronics", 159.99, 200.0, 523.0, 3.9),
      Product("4", "PRD-004", "USB-C Hub", "Accessories", 79.99, 320.0, 892.0, 6.1),
      Product("5", "PRD-005", "Laptop Stand", "Accessories", 89.99, 180.0, 445.0, 4.5),
      Product("6", "PRD-006", "Webcam HD", "Electronics", 129.99, 95.0, 278.0, 3.2),
      Product("7", "PRD-007", "Phone Case", "Accessories", 24.99, 800.0, 2156.0, 7.3),
      Product("8", "PRD-008", "Screen Protector", "Accessories", 14.99, 1200.0, 3421.0, 8.1),
      Product("9", "PRD-009", "Bluetooth Speaker", "Electronics", 199.99, 125.0, 389.0, 4.7),
      Product("10", "PRD-010", "Power Bank", "Accessories", 59.99, 550.0, 1834.0, 6.9) ]
  }

  const AllShown: Visibility := Visibility(true, true, true, true, true, true)

  /** A staged edit, as the view layer sends them. */
  datatype StagedEdit =
    | EditProduct(id: string, update: ProductUpdate, today: int, draws: seq<real>)
    | EditMetrics(metricsUpdate: MetricsUpdate)
    | EditHistory(index: nat, revenue: real)
    | EditBreakdown(index: nat, value: real)

  class Store {
    var currentUser: string
    var userRole: Role
    var adminMode: bool
    var products: seq<Product>
    var originalProducts: seq<Product>
    var metrics: Metrics
    var originalMetrics: Metrics
    var auditLogs: seq<AuditEntry>
    var visibility: Visibility
    var hasPendingChanges: bool

    /**
     The list is never empty and keeps its distinct ids in the confirmed order;
     with no pending changes the working copy is the confirmed one.
     */
    ghost predicate Valid()
      reads this
    {
      && |products| > 0
      && DistinctIds(products)
      && Ids(originalProducts) == Ids(products)
      && (!hasPendingChanges ==> products == originalProducts && metrics == originalMetrics)
    }

    constructor (today: int, draws: seq<real>)
      requires ValidDraws(draws)
      ensures Valid()
      ensures products == originalProducts == MockProducts()
      ensures metrics == originalMetrics == CalculateMetrics(MockProducts(), today, draws)
      ensures auditLogs == [] && !hasPendingChanges
      ensures currentUser == AdminUser && userRole == Admin && !adminMode && visibility == AllShown
    {
      currentUser := AdminUser;
      userRole := Admin;
      adminMode := false;
      products := MockProducts();
      originalProducts := MockProducts();
      metrics := CalculateMetrics(MockProducts(), today, draws);
      originalMetrics := CalculateMetrics(MockProducts(), today, draws);
      auditLogs := [];
      hasPendingChanges := false;
      visibility := AllShown;
    }

    method SetUserRole(role: Role)
      requires Valid()
      modifies this`userRole
      ensures Valid() && userRole == role
    {
      userRole := role;
    }

    /** Admin mode flips only for an admin; for other roles nothing happens. */
    method ToggleAdminMode()
      requires Valid()
      modifies this`adminMode
      ensures Valid()
      ensures adminMode == if userRole == Admin then !old(adminMode) else old(adminMode)
    {
      if userRole == Admin {
        adminMode := !adminMode;
      }
    }

    method ToggleVisibility(section: Section)
      requires Valid()
      modifies this`visibility
      ensures Valid() && visibility == Flip(old(visibility), section)
    {
      visibility := Flip(visibility, section);
    }

    /**
     Stages `u` on the working product(s) with that id and recomputes the metrics
     from the working list. Pending becomes true even when no product has the id.
     */
    method UpdateProduct(id: string, u: ProductUpdate, today: int, draws: seq<real>)
      requires Valid() && ValidDraws(draws)
      modifies this`products, this`metrics, this`hasPendingChanges
      ensures Valid()
      ensures |products| == |old(products)|
      ensures forall i :: 0 <= i < |products| ==>
        products[i] == if old(products)[i].id == id then Merge(old(products)[i], u) else old(products)[i]
      ensures metrics == CalculateMetrics(products, today, draws)
      ensures hasPendingChanges
    {
      var updated := ApplyUpdate(products, id, u);
      SameIdsStayDistinct(updated, products);
      products := updated;
      metrics := CalculateMetrics(products, today, draws);
      hasPendingChanges := true;
    }

    /** Stages a direct edit of metric fields; the products are not touched. */
    method UpdateMetrics(u: MetricsUpdate)
      requires Valid()
      modifies this`metrics, this`hasPendingChanges
      ensures Valid()
      ensures metrics == Metrics(
        Pick(u.revenue, old(metrics).revenue),
        Pick(u.aov, old(metrics).aov),
        Pick(u.conversionRate, old(metrics).conversionRate),
        Pick(u.revenueHistory, old(metrics).revenueHistory),
        Pick(u.categoryBreakdown, old(metrics).categoryBreakdown))
      ensures hasPendingChanges
    {
      metrics := Metrics(
        Pick(u.revenue, metrics.revenue),
        Pick(u.aov, metrics.aov),
        Pick(u.conversionRate, metrics.conversionRate),
        Pick(u.revenueHistory, metrics.revenueHistory),
        Pick(u.categoryBreakdown, metrics.categoryBreakdown));
      hasPendingChanges := true;
    }

    /** Stages a new revenue for day `index` of the history; its date and every other day stay. */
    method UpdateRevenueHistory(index: nat, revenue: real)
      requires Valid() && index < |metrics.revenueHistory|
      modifies this`metrics, this`hasPendingChanges
      ensures Valid()
      ensures |metrics.revenueHistory| == |old(metrics).revenueHistory|
      ensures metrics.revenueHistory[index] == old(metrics).revenueHistory[index].(revenue := revenue)
      ensures forall i :: 0 <= i < |metrics.revenueHistory| && i != index ==>
        metrics.revenueHistory[i] == old(metrics).revenueHistory[i]
      ensures metrics == old(metrics).(revenueHistory := metrics.revenueHistory)
      ensures hasPendingChanges
    {
      var history := metrics.revenueHistory;
      history := history[index := history[index].(revenue := revenue)];
      metrics := metrics.(revenueHistory := history);
      hasPendingChanges := true;
    }

    /** Stages a new value for category `index` of the breakdown; its name and every other entry stay. */
    method UpdateCategoryBreakdown(index: nat, value: real)
      requires Valid() && index < |metrics.categoryBreakdown|
      modifies this`metrics, this`hasPendingChanges
      ensures Valid()
      ensures |metrics.categoryBreakdown| == |old(metrics).categoryBreakdown|
      ensures metrics.categoryBreakdown[index] == old(metrics).categoryBreakdown[index].(value := value)
      ensures forall i :: 0 <= i < |metrics.categoryBreakdown| && i != index ==>
        metrics.categoryBreakdown[i] == old(metrics).categoryBreakdown[i]
      ensures metrics == old(metrics).(categoryBreakdown := metrics.categoryBreakdown)
      ensures hasPendingChanges
    {
      var breakdown := metrics.categoryBreakdown;
      breakdown := breakdown[index := breakdown[index].(value := value)];
      metrics := metrics.(categoryBreakdown := breakdown);
      hasPendingChanges := true;
    }

    /**
     Logs one entry per changed field ahead of the existing log, then makes the
     working copy the confirmed one. With nothing pending, nothing is logged.
     */
    method ConfirmChanges(reason: string)
      requires Valid()
      modifies this`originalProducts, this`originalMetrics, this`auditLogs, this`hasPendingChanges
      ensures Valid()
      ensures auditLogs == ConfirmEntries(products, old(originalProducts), metrics, old(originalMetrics), currentUser, reason)
        + old(auditLogs)
      ensures auditLogs[|auditLogs| - |old(auditLogs)|..] == old(auditLogs)
      ensures !old(hasPendingChanges) ==> auditLogs == old(auditLogs)
      ensures originalProducts == products && originalMetrics == metrics && !hasPendingChanges
    {
      var logs := CollectAuditLogs(products, originalProducts, metrics, originalMetrics, currentUser, reason);
      if !hasPendingChanges {
        NothingChangedNothingLogged(products, metrics, originalMetrics, currentUser, reason);
      }
      originalProducts := products;
      originalMetrics := metrics;
      auditLogs := logs + auditLogs;
      hasPendingChanges := false;
    }

    /** Restores the confirmed products and metrics; the audit log is left alone. */
    method DiscardChanges()
      requires Valid()
      modifies this`products, this`metrics, this`hasPendingChanges
      ensures Valid()
      ensures products == originalProducts && metrics == originalMetrics && !hasPendingChanges
    {
      products := originalProducts;
      metrics := originalMetrics;
      hasPendingChanges := false;
    }

    /** Discarding twice leaves the store as discarding once does. */
    method DiscardTwice()
      requires Valid()
      modifies this`products, this`metrics, this`hasPendingChanges
      ensures Valid()
      ensures products == old(originalProducts) && metrics == old(originalMetrics) && !hasPendingChanges
    {
      DiscardChanges();
      DiscardChanges();
    }

    /**
     Sends one staged edit to its operation. An edit of a history day or a
     breakdown entry whose position is out of range is not sent.
     */
    method Stage(e: StagedEdit)
      requires Valid()
      requires e.EditProduct? ==> ValidDraws(e.draws)
      modifies this`products, this`metrics, this`hasPendingChanges
      ensures Valid()
      ensures e.EditProduct? ==>
        && products == ApplyUpdate(old(products), e.id, e.update)
        && metrics == CalculateMetrics(products, e.today, e.draws)
        && hasPendingChanges
      ensures e.EditMetrics? ==>
        && products == old(products)
        && metrics == Metrics(
          Pick(e.metricsUpdate.revenue, old(metrics).revenue),
          Pick(e.metricsUpdate.aov, old(metrics).aov),
          Pick(e.metricsUpdate.conversionRate, old(metrics).conversionRate),
          Pick(e.metricsUpdate.revenueHistory, old(metrics).revenueHistory),
          Pick(e.metricsUpdate.categoryBreakdown, old(metrics).categoryBreakdown))
        && hasPendingChanges
      ensures e.EditHistory? && e.index < |old(metrics).revenueHistory| ==>
        && products == old(products)
        && metrics == old(metrics).(revenueHistory := old(metrics).revenueHistory[e.index :=
             old(metrics).revenueHistory[e.index].(revenue := e.revenue)])
        && hasPendingChanges
      ensures e.EditBreakdown? && e.index < |old(metrics).categoryBreakdown| ==>
        && products == old(products)
        && metrics == old(metrics).(categoryBreakdown := old(metrics).categoryBreakdown[e.index :=
             old(metrics).categoryBreakdown[e.index].(value := e.value)])
        && hasPendingChanges
      ensures ((e.EditHistory? && e.index >= |old(metrics).revenueHistory|)
        || (e.EditBreakdown? && e.index >= |old(metrics).categoryBreakdown|)) ==>
        products == old(products) && metrics == old(metrics) && hasPendingChanges == old(hasPendingChanges)
    {
      match e
      case EditProduct(id, u, today, draws) =>
        UpdateProduct(id, u, today, draws);
      case EditMetrics(u) =>
        UpdateMetrics(u);
      case EditHistory(index, revenue) =>
        if index < |metrics.revenueHistory| {
          UpdateRevenueHistory(index, revenue);
        }
      case EditBreakdown(index, value) =>
        if index < |metrics.categoryBreakdown| {
          UpdateCategoryBreakdown(index, value);
        }
    }

    /**
     Stages `edits` one after the other, then discards: from a state with
     nothing pending this gives back the products and metrics exactly.
     */
    method StageThenDiscard(edits: seq<StagedEdit>)
      requires Valid() && !hasPendingChanges
      requires forall e :: e in edits && e.EditProduct? ==> ValidDraws(e.draws)
      modifies this`products, this`metrics, this`hasPendingChanges
      ensures Valid()
      ensures products == old(products) && metrics == old(metrics) && !hasPendingChanges
    {
      for i := 0 to |edits|
        invariant Valid()
        invariant originalProducts == old(products) && originalMetrics == old(metrics)
      {
        assert edits[i] in edits;
        Stage(edits[i]);
      }
      DiscardChanges();
    }
  }
}
