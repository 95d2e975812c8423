/**
 The audit differ run by `confirmChanges`: each working product is matched to
 its confirmed original by id and compared field by field (the id excepted),
 then the scalar KPIs are compared; every field whose values differ gives one
 `UPDATE` entry, in the order the fields are visited.
 */
module Audit {
  import opened DashboardTypes

  const UpdateAction: string := "UPDATE"

  /** The subject under which the scalar KPI changes are logged. */
  const MetricsLabel: string := "Metrics"

  /** One compared field: its key, its confirmed value and its working value. */
  datatype Change = Change(key: string, before: FieldValue, after: FieldValue)

  /** The non-id fields of a product, in the key order of the product records. */
  function ProductChanges(original: Product, current: Product): seq<Change>
  {
    [ Change("sku", Text(original.sku), Text(current.sku)),
      Change("name", Text(original.name), Text(current.name)),
      Change("category", Text(original.category), Text(current.category)),
      Change("price", Number(original.price), Number(current.price)),
      Change("stock", Number(original.stock), Number(current.stock)),
      Change("sales", Number(original.sales), Number(current.sales)),
      Change("conversionRate", Number(original.conversionRate), Number(current.conversionRate)) ]
  }

  /** The scalar KPIs; the revenue history and the category breakdown are skipped. */
  function MetricChanges(original: Metrics, current: Metrics): seq<Change>
  {
    [ Change("revenue", Number(original.revenue), Number(current.revenue)),
      Change("aov", Number(original.aov), Number(current.aov)),
      Change("conversionRate", Number(original.conversionRate), Number(current.conversionRate)) ]
  }

  function EntryFor(subject: string, c: Change, user: string, reason: string): AuditEntry
  {
    AuditEntry(user, UpdateAction, subject + " - " + c.key, c.before, c.after, reason)
  }

  /** The entries for the changed fields among `cs`, in order. */
  function Diffs(subject: string, cs: seq<Change>, user: string, reason: string): seq<AuditEntry>
  {
    if cs == [] then []
    else
      var c := cs[|cs| - 1];
      Diffs(subject, cs[..|cs| - 1], user, reason)
        + (if c.before != c.after then [EntryFor(subject, c, user, reason)] else [])
  }

  ghost function ChangedIndices(cs: seq<Change>): set<nat>
  {
    set i: nat | i < |cs| && cs[i].before != cs[i].after
  }

  /** An entry is logged for a field exactly when its working value differs from the confirmed one. */
  lemma {:induction false} DiffsExactlyChanged(subject: string, cs: seq<Change>, user: string, reason: string)
    ensures forall e :: e in Diffs(subject, cs, user, reason) <==>
      exists i :: 0 <= i < |cs| && cs[i].before != cs[i].after && e == EntryFor(subject, cs[i], user, reason)
  {
    if cs != [] {
      var n := |cs| - 1;
      DiffsExactlyChanged(subject, cs[..n], user, reason);
      var d := Diffs(subject, cs[..n], user, reason);
      assert Diffs(subject, cs, user, reason)
        == d + (if cs[n].before != cs[n].after then [EntryFor(subject, cs[n], user, reason)] else []);
      forall e | e in Diffs(subject, cs, user, reason)
        ensures exists i :: 0 <= i < |cs| && cs[i].before != cs[i].after && e == EntryFor(subject, cs[i], user, reason)
      {
        if e in Diffs(subject, cs[..n], user, reason) {
          var i :| 0 <= i < n && cs[..n][i].before != cs[..n][i].after && e == EntryFor(subject, cs[..n][i], user, reason);
          assert cs[..n][i] == cs[i];
        } else {
          assert e == EntryFor(subject, cs[n], user, reason);
        }
      }
      forall e | exists i :: 0 <= i < |cs| && cs[i].before != cs[i].after && e == EntryFor(subject, cs[i], user, reason)
        ensures e in Diffs(subject, cs, user, reason)
      {
        var i :| 0 <= i < |cs| && cs[i].before != cs[i].after && e == EntryFor(subject, cs[i], user, reason);
        if i < n {
          assert cs[..n][i] == cs[i];
        }
      }
    }
  }

  /** Exactly one entry per changed field. */
  lemma {:induction false} DiffsCount(subject: string, cs: seq<Change>, user: string, reason: string)
    ensures |Diffs(subject, cs, user, reason)| == |ChangedIndices(cs)|
  {
    if cs == [] {
      assert ChangedIndices(cs) == {};
    } else {
      var n := |cs| - 1;
      DiffsCount(subject, cs[..n], user, reason);
      var last: set<nat> := if cs[n].before != cs[n].after then {n} else {};
      forall i | i in ChangedIndices(cs)
        ensures i in ChangedIndices(cs[..n]) + last
      {
        if i < n {
          assert cs[..n][i] == cs[i];
        }
      }
      forall i | i in ChangedIndices(cs[..n]) + last
        ensures i in ChangedIndices(cs)
      {
        if i < n {
          assert cs[..n][i] == cs[i];
        }
      }
      assert ChangedIndices(cs) == ChangedIndices(cs[..n]) + last;
      assert n !in ChangedIndices(cs[..n]);
    }
  }

  /** A product yields no entry exactly when every field other than its id is as confirmed. */
  lemma ProductDiffsEmpty(original: Product, current: Product, user: string, reason: string)
    ensures Diffs(current.name, ProductChanges(original, current), user, reason) == []
      <==> current == original.(id := current.id)
  {
    var cs := ProductChanges(original, current);
    DiffsCount(current.name, cs, user, reason);
    if current == original.(id := current.id) {
      assert ChangedIndices(cs) == {};
    } else {
      var i: nat :=
        if current.sku != original.sku then 0
        else if current.name != original.name then 1
        else if current.category != original.category then 2
        else if current.price != original.price then 3
        else if current.stock != original.stock then 4
        else if current.sales != original.sales then 5
        else 6;
      assert i in ChangedIndices(cs);
    }
  }

  /** `originalProducts.find(p => p.id === id)`: the first product with that id. */
  function FindById(ps: seq<Product>, id: string): (r: Option<Product>)
    ensures r.Some? ==> r.value in ps && r.value.id == id
    ensures r.None? <==> forall p :: p in ps ==> p.id != id
  {
    if ps == [] then None
    else if ps[0].id == id then Some(ps[0])
    else FindById(ps[1..], id)
  }

  /** With distinct ids, looking up the id of the product at position `i` finds that product. */
  lemma {:induction false} FindByIdAt(ps: seq<Product>, i: nat)
    requires i < |ps| && DistinctIds(ps)
    ensures FindById(ps, ps[i].id) == Some(ps[i])
  {
    if i > 0 {
      assert ps[0].id != ps[i].id;
      FindByIdAt(ps[1..], i - 1);
    }
  }

  /** The entries for one working product: none when it has no confirmed original. */
  function EntriesFor(p: Product, originals: seq<Product>, user: string, reason: string): seq<AuditEntry>
  {
    match FindById(originals, p.id)
    case None => []
    case Some(o) => Diffs(p.name, ProductChanges(o, p), user, reason)
  }

  function ProductEntries(ps: seq<Product>, originals: seq<Product>, user: string, reason: string): seq<AuditEntry>
  {
    if ps == [] then []
    else ProductEntries(ps[..|ps| - 1], originals, user, reason) + EntriesFor(ps[|ps| - 1], originals, user, reason)
  }

  /** Everything one `confirmChanges` call logs, in the order it logs it. */
  function ConfirmEntries(ps: seq<Product>, originals: seq<Product>, m: Metrics, om: Metrics,
                          user: string, reason: string): seq<AuditEntry>
  {
    ProductEntries(ps, originals, user, reason) + Diffs(MetricsLabel, MetricChanges(om, m), user, reason)
  }

  /** A reference for the product entries: each product compared with the original at the same position. */
  function PairwiseEntries(ps: seq<Product>, originals: seq<Product>, user: string, reason: string): seq<AuditEntry>
    requires |ps| == |originals|
  {
    if ps == [] then []
    else
      var n := |ps| - 1;
      PairwiseEntries(ps[..n], originals[..n], user, reason)
        + Diffs(ps[n].name, ProductChanges(originals[n], ps[n]), user, reason)
  }

  /**
   When the working list has the confirmed list's ids in the same order and those
   ids are distinct, matching by id compares each product with the original at its position.
   */
  lemma {:induction false} MatchByIdIsPairwise(ps: seq<Product>, originals: seq<Product>, user: string, reason: string)
    requires Ids(ps) == Ids(originals) && DistinctIds(originals)
    ensures ProductEntries(ps, originals, user, reason) == PairwiseEntries(ps, originals, user, reason)
  {
    forall j | 0 <= j < |ps|
      ensures EntriesFor(ps[j], originals, user, reason)
        == Diffs(ps[j].name, ProductChanges(originals[j], ps[j]), user, reason)
    {
      assert ps[j].id == Ids(ps)[j] == Ids(originals)[j];
      FindByIdAt(originals, j);
    }
    MatchedPairwise(ps, originals, originals, user, reason);
  }

  /**
   When every product of `ps` finds in `all` the original at its own position in `os`,
   the entries logged by id are the pairwise entries.
   */
  lemma {:induction false} MatchedPairwise(ps: seq<Product>, os: seq<Product>, all: seq<Product>, user: string, reason: string)
    requires |ps| == |os|
    requires forall j :: 0 <= j < |ps| ==>
      (EntriesFor(ps[j], all, user, reason) == Diffs(ps[j].name, ProductChanges(os[j], ps[j]), user, reason))
    ensures ProductEntries(ps, all, user, reason) == PairwiseEntries(ps, os, user, reason)
  {
    if ps != [] {
      var n := |ps| - 1;
      forall j | 0 <= j < n
        ensures EntriesFor(ps[..n][j], all, user, reason) == Diffs(ps[..n][j].name, ProductChanges(os[..n][j], ps[..n][j]), user, reason)
      {
        assert ps[..n][j] == ps[j] && os[..n][j] == os[j];
      }
      MatchedPairwise(ps[..n], os[..n], all, user, reason);
    }
  }

  /** Confirming a working state equal to the confirmed one (KPIs included) logs nothing. */
  lemma {:induction false} NothingChangedNothingLogged(ps: seq<Product>, m: Metrics, om: Metrics, user: string, reason: string)
    requires DistinctIds(ps)
    requires m.revenue == om.revenue && m.aov == om.aov && m.conversionRate == om.conversionRate
    ensures ConfirmEntries(ps, ps, m, om, user, reason) == []
  {
    MatchByIdIsPairwise(ps, ps, user, reason);
    UnchangedPairwise(ps, user, reason);
    NoChangeNoDiffs(MetricsLabel, MetricChanges(om, m), user, reason);
  }

  /** Fields that all kept their confirmed values give no entry. */
  lemma {:induction false} NoChangeNoDiffs(subject: string, cs: seq<Change>, user: string, reason: string)
    requires forall i :: 0 <= i < |cs| ==> cs[i].before == cs[i].after
    ensures Diffs(subject, cs, user, reason) == []
  {
    if cs != [] {
      var n := |cs| - 1;
      assert forall i :: 0 <= i < n ==> cs[..n][i] == cs[i];
      NoChangeNoDiffs(subject, cs[..n], user, reason);
    }
  }

  lemma {:induction false} UnchangedPairwise(ps: seq<Product>, user: string, reason: string)
    ensures PairwiseEntries(ps, ps, user, reason) == []
  {
    if ps != [] {
      UnchangedPairwise(ps[..|ps| - 1], user, reason);
      ProductDiffsEmpty(ps[|ps| - 1], ps[|ps| - 1], user, reason);
    }
  }

  /** The revenue history and the category breakdown never reach the audit log. */
  lemma SeriesNotAudited(ps: seq<Product>, originals: seq<Product>, m: Metrics, om: Metrics,
                         h: seq<HistoryPoint>, b: seq<CategoryValue>, user: string, reason: string)
    ensures ConfirmEntries(ps, originals, m.(revenueHistory := h, categoryBreakdown := b), om, user, reason)
      == ConfirmEntries(ps, originals, m, om, user, reason)
  {
  }

  /** Appends to `logs` one entry for each changed field among `changes` (the inner `forEach`). */
  method AppendDiffs(logs: seq<AuditEntry>, subject: string, changes: seq<Change>, user: string, reason: string)
    returns (out: seq<AuditEntry>)
    ensures out == logs + Diffs(subject, changes, user, reason)
  {
    out := logs;
    var j := 0;
    while j < |changes|
      invariant 0 <= j <= |changes|
      invariant out == logs + Diffs(subject, changes[..j], user, reason)
    {
      assert changes[..j + 1][..j] == changes[..j];
      if changes[j].before != changes[j].after {
        out := out + [EntryFor(subject, changes[j], user, reason)];
      }
      j := j + 1;
    }
    assert changes[..|changes|] == changes;
  }

  /** The log-building loops of `confirmChanges`: products first, then the scalar KPIs. */
  method CollectAuditLogs(products: seq<Product>, originals: seq<Product>, metrics: Metrics, originalMetrics: Metrics,
                          user: string, reason: string)
    returns (logs: seq<AuditEntry>)
    ensures logs == ConfirmEntries(products, originals, metrics, originalMetrics, user, reason)
  {
    logs := [];
    var i := 0;
    while i < |products|
      invariant 0 <= i <= |products|
      invariant logs == ProductEntries(products[..i], originals, user, reason)
    {
      assert products[..i + 1][..i] == products[..i];
      var product := products[i];
      var original := FindById(originals, product.id);
      if original.Some? {
        logs := AppendDiffs(logs, product.name, ProductChanges(original.value, product), user, reason);
      }
      i := i + 1;
    }
    assert products[..|products|] == products;
    logs := AppendDiffs(logs, MetricsLabel, MetricChanges(originalMetrics, metrics), user, reason);
  }
}
