/** The selection resolver at the head of the ROI computation (App.tsx, lines
    42-59): it picks the catalog products whose id is selected, collects the gain
    categories they unlock, and totals their recurring and one-time prices. */
module Resolver {
  import opened Types
  import opened Constants

  /** What the ROI engine needs to know about a selection. */
  datatype Resolution = Resolution(activeGains: set<Gain>, monthlyCost: real, oneTimeCost: real)

  /** The products of `all` whose id is selected, in catalog order
      (`allProducts.filter(p => selectedIds.includes(p.id))`). */
  function SelectedProducts(all: seq<Product>, selectedIds: seq<string>): (selected: seq<Product>)
    ensures forall p :: p in selected <==> p in all && p.id in selectedIds
  {
    if all == [] then []
    else if all[0].id in selectedIds then [all[0]] + SelectedProducts(all[1..], selectedIds)
    else SelectedProducts(all[1..], selectedIds)
  }

  /** The filter keeps each selected product as often as the list holds it, and
      nothing else; so no price is counted twice. */
  lemma {:induction false} SelectedProductsCounts(all: seq<Product>, selectedIds: seq<string>)
    ensures forall p :: multiset(SelectedProducts(all, selectedIds))[p]
                     == if p.id in selectedIds then multiset(all)[p] else 0
    decreases |all|
  {
    if all != [] {
      assert all == [all[0]] + all[1..];
      SelectedProductsCounts(all[1..], selectedIds);
    }
  }

  /** The union of the gain lists of `products`. */
  function GainsOf(products: seq<Product>): set<Gain> {
    set p, g | p in products && g in p.gains :: g
  }

  /** Sum of the recurring prices. */
  function TotalMonthly(products: seq<Product>): (total: real)
    ensures (forall p :: p in products ==> p.priceMonthly >= 0.0) ==> total >= 0.0
  {
    if products == [] then 0.0
    else TotalMonthly(products[..|products| - 1]) + products[|products| - 1].priceMonthly
  }

  /** Sum of the one-time prices. */
  function TotalOneTime(products: seq<Product>): (total: real)
    ensures (forall p :: p in products ==> p.priceOneTime >= 0.0) ==> total >= 0.0
  {
    if products == [] then 0.0
    else TotalOneTime(products[..|products| - 1]) + products[|products| - 1].priceOneTime
  }

  /** The resolution of `selectedIds` against `catalog`. */
  function Resolve(catalog: seq<ProductCategory>, selectedIds: seq<string>): Resolution {
    var selected := SelectedProducts(AllProducts(catalog), selectedIds);
    Resolution(GainsOf(selected), TotalMonthly(selected), TotalOneTime(selected))
  }

  /** The gain categories listed in `gains`. */
  function GainSet(gains: seq<Gain>): set<Gain> {
    set g | g in gains
  }

  lemma GainsOfSnoc(products: seq<Product>, p: Product)
    ensures GainsOf(products + [p]) == GainsOf(products) + GainSet(p.gains)
  {
    assert forall q :: q in products + [p] <==> q in products || q == p;
  }

  /** Lines 45-48: the set of active gains, filled product by product. */
  method CollectActiveGains(selectedProducts: seq<Product>) returns (activeGains: set<Gain>)
    ensures activeGains == GainsOf(selectedProducts)
  {
    activeGains := {};
    for i := 0 to |selectedProducts|
      invariant activeGains == GainsOf(selectedProducts[..i])
    {
      var p := selectedProducts[i];
      for j := 0 to |p.gains|
        invariant activeGains == GainsOf(selectedProducts[..i]) + GainSet(p.gains[..j])
      {
        assert p.gains[..j + 1] == p.gains[..j] + [p.gains[j]];
        activeGains := activeGains + {p.gains[j]};
      }
      assert p.gains[..|p.gains|] == p.gains;
      assert selectedProducts[..i + 1] == selectedProducts[..i] + [p];
      GainsOfSnoc(selectedProducts[..i], p);
    }
    assert selectedProducts[..|selectedProducts|] == selectedProducts;
  }

  /** Lines 50-59: the recurring and one-time totals, accumulated product by
      product. As written, the loop branches on `p.costType` and adds `p.price`;
      Product has neither field (it has `priceMonthly` and `priceOneTime`), so
      the model adds each product's two prices, as evidently intended.
      `CostsAsWritten` models the code as it stands. */
  method SumPrices(selectedProducts: seq<Product>) returns (monthlyServiceProCost: real, oneTimeServiceProCost: real)
    ensures monthlyServiceProCost == TotalMonthly(selectedProducts)
    ensures oneTimeServiceProCost == TotalOneTime(selectedProducts)
  {
    monthlyServiceProCost := 0.0;
    oneTimeServiceProCost := 0.0;
    for i := 0 to |selectedProducts|
      invariant monthlyServiceProCost == TotalMonthly(selectedProducts[..i])
      invariant oneTimeServiceProCost == TotalOneTime(selectedProducts[..i])
    {
      var p := selectedProducts[i];
      assert selectedProducts[..i + 1][..i] == selectedProducts[..i];
      monthlyServiceProCost := monthlyServiceProCost + p.priceMonthly;
      oneTimeServiceProCost := oneTimeServiceProCost + p.priceOneTime;
    }
    assert selectedProducts[..|selectedProducts|] == selectedProducts;
  }

  /** Lines 42-59: resolve the selection against the catalog. */
  method ResolveSelection(catalog: seq<ProductCategory>, selectedIds: seq<string>) returns (resolved: Resolution)
    ensures resolved == Resolve(catalog, selectedIds)
  {
    var allProducts := AllProducts(catalog);
    var selectedProducts := SelectedProducts(allProducts, selectedIds);
    var activeGains := CollectActiveGains(selectedProducts);
    var monthlyServiceProCost, oneTimeServiceProCost := SumPrices(selectedProducts);
    resolved := Resolution(activeGains, monthlyServiceProCost, oneTimeServiceProCost);
  }

  /** A gain category is active exactly when some selected catalog product lists it. */
  lemma ActiveGainsAreUnion(catalog: seq<ProductCategory>, selectedIds: seq<string>, g: Gain)
    ensures g in Resolve(catalog, selectedIds).activeGains
        <==> exists c, p :: c in catalog && p in c.products && p.id in selectedIds && g in p.gains
  {
    var selected := SelectedProducts(AllProducts(catalog), selectedIds);
    if g in Resolve(catalog, selectedIds).activeGains {
      var p :| p in selected && g in p.gains;
      var c :| c in catalog && p in c.products;
    }
  }

  /** Only which catalog ids are selected matters: unknown ids, repeated ids and
      the order of the selection have no effect. */
  lemma {:induction false} SelectionDependsOnlyOnKnownIds(all: seq<Product>, ids1: seq<string>, ids2: seq<string>)
    requires forall p :: p in all ==> (p.id in ids1 <==> p.id in ids2)
    ensures SelectedProducts(all, ids1) == SelectedProducts(all, ids2)
    decreases |all|
  {
    if all != [] {
      SelectionDependsOnlyOnKnownIds(all[1..], ids1, ids2);
    }
  }

  lemma ResolveDependsOnlyOnKnownIds(catalog: seq<ProductCategory>, ids1: seq<string>, ids2: seq<string>)
    requires forall c, p :: c in catalog && p in c.products ==> (p.id in ids1 <==> p.id in ids2)
    ensures Resolve(catalog, ids1) == Resolve(catalog, ids2)
  {
    SelectionDependsOnlyOnKnownIds(AllProducts(catalog), ids1, ids2);
  }

  /** Appending an id that no catalog product has changes nothing. */
  lemma UnknownIdIgnored(catalog: seq<ProductCategory>, selectedIds: seq<string>, id: string)
    requires forall c, p :: c in catalog && p in c.products ==> p.id != id
    ensures Resolve(catalog, selectedIds + [id]) == Resolve(catalog, selectedIds)
  {
    ResolveDependsOnlyOnKnownIds(catalog, selectedIds + [id], selectedIds);
  }

  /** Selecting an id a second time changes nothing. */
  lemma RepeatedIdIgnored(catalog: seq<ProductCategory>, selectedIds: seq<string>, id: string)
    requires id in selectedIds
    ensures Resolve(catalog, selectedIds + [id]) == Resolve(catalog, selectedIds)
  {
    ResolveDependsOnlyOnKnownIds(catalog, selectedIds + [id], selectedIds);
  }

  lemma {:induction false} NoMatchSelectsNothing(all: seq<Product>, selectedIds: seq<string>)
    requires forall p :: p in all ==> p.id !in selectedIds
    ensures SelectedProducts(all, selectedIds) == []
    decreases |all|
  {
    if all != [] {
      NoMatchSelectsNothing(all[1..], selectedIds);
    }
  }

  /** Nothing selected: no gain unlocked and both totals 0. */
  lemma EmptySelection(catalog: seq<ProductCategory>)
    ensures Resolve(catalog, []) == Resolution({}, 0.0, 0.0)
  {
    NoMatchSelectsNothing(AllProducts(catalog), []);
  }

  /** With the shipped catalog, whatever is selected costs a non-negative amount. */
  lemma CatalogCostsNonNegative(selectedIds: seq<string>)
    ensures Resolve(ProductsConfig, selectedIds).monthlyCost >= 0.0
    ensures Resolve(ProductsConfig, selectedIds).oneTimeCost >= 0.0
  {
    PricesNonNegative();
  }

  /** A JavaScript number: a finite value or NaN. */
  datatype JsNumber = Finite(value: real) | NaN

  /** The cost loop of lines 50-59 as written. `p.costType` reads as undefined, so
      the `'monthly'` branch is never taken; `p.price` reads as undefined, and
      adding undefined to a number gives NaN. */
  function CostsAsWritten(selected: seq<Product>): (costs: (JsNumber, JsNumber))
    ensures costs.0 == Finite(0.0)
    ensures costs.1 == if selected == [] then Finite(0.0) else NaN
  {
    if selected == [] then (Finite(0.0), Finite(0.0))
    else
      var (monthly, oneTime) := CostsAsWritten(selected[..|selected| - 1]);
      (monthly, NaN)
  }

  /** Selecting `["crew"]` picks the CREW package alone. */
  lemma CrewSelection()
    ensures SelectedProducts(AllProducts(ProductsConfig), ["crew"]) == [Crew]
  {
    CatalogProducts();
    var all := AllProducts(ProductsConfig);
    assert all[2..] == [Fleet, Chatbot, Booking, Crm, Analytics];
    NoMatchSelectsNothing(all[2..], ["crew"]);
    assert all[0].id !in ["crew"] && all[1].id in ["crew"];
    assert SelectedProducts(all, ["crew"]) == SelectedProducts(all[1..], ["crew"]);
    assert all[1..][1..] == all[2..];
    assert SelectedProducts(all[1..], ["crew"]) == [Crew] + SelectedProducts(all[2..], ["crew"]);
  }

  /** Selecting CREW: the code as written reports no monthly cost and a NaN
      one-time cost, where the prices are 59 a month and 2499 up front. */
  lemma CrewCostsAsWritten()
    ensures CostsAsWritten(SelectedProducts(AllProducts(ProductsConfig), ["crew"])) == (Finite(0.0), NaN)
    ensures Resolve(ProductsConfig, ["crew"]).monthlyCost == 59.0
    ensures Resolve(ProductsConfig, ["crew"]).oneTimeCost == 2499.0
  {
    CrewSelection();
    assert [Crew][..0] == [];
    assert TotalMonthly([Crew]) == TotalMonthly([]) + Crew.priceMonthly;
    assert TotalOneTime([Crew]) == TotalOneTime([]) + Crew.priceOneTime;
  }
}
