/** The selection update rule of the product picker
    (components/ProductSelector.tsx, `handleSelection` and `isSelected`).
    The selection is the list of chosen product ids; a pick never mutates it but
    yields the next list. */
module ProductSelector {
  import opened Types
  import opened Constants

  /** `selectedIds.includes(id)`. */
  predicate IsSelected(selectedIds: seq<string>, id: string) {
    id in selectedIds
  }

  /** Index of the first `'single'` category (`PRODUCTS_CONFIG.find(c => c.selectionType === 'single')`). */
  function FindFirstSingle(catalog: seq<ProductCategory>): (found: Option<nat>)
    ensures found.Some? ==> found.value < |catalog| && catalog[found.value].selectionType == Single
    ensures found.Some? ==> forall k :: 0 <= k < found.value ==> catalog[k].selectionType != Single
    ensures found.None? ==> forall k :: 0 <= k < |catalog| ==> catalog[k].selectionType != Single
  {
    if catalog == [] then None
    else if catalog[0].selectionType == Single then Some(0)
    else match FindFirstSingle(catalog[1..])
      case None => None
      case Some(k) => Some(k + 1)
  }

  /** The ids of the first `'single'` category's products, or `[]` when there is none
      (`find(...)?.products.map(p => p.id) || []`). */
  function PackageIds(catalog: seq<ProductCategory>): seq<string> {
    match FindFirstSingle(catalog)
    case None => []
    case Some(k) => ProductIds(catalog[k].products)
  }

  /** `s.filter(x => !drop.includes(x))`. */
  function RemoveIds(s: seq<string>, drop: seq<string>): (r: seq<string>)
    ensures |r| <= |s|
    ensures forall x :: x in r <==> x in s && x !in drop
  {
    if s == [] then []
    else if s[0] in drop then RemoveIds(s[1..], drop)
    else [s[0]] + RemoveIds(s[1..], drop)
  }

  /** The list with `id` taken out everywhere if it was there, appended otherwise. */
  function Toggle(selectedIds: seq<string>, id: string): seq<string> {
    if id in selectedIds then RemoveIds(selectedIds, [id]) else selectedIds + [id]
  }

  /** The selection after the user picks product `id` of `category`. A pick in a
      `'single'` category replaces the selection; a pick in a `'multiple'`
      category toggles the id and then drops every package id, also when the
      toggle was a deselect. */
  function HandleSelection(catalog: seq<ProductCategory>, selectedIds: seq<string>, id: string,
                           category: ProductCategory): (r: seq<string>)
    ensures category.selectionType == Single ==> r == [id]
    ensures category.selectionType == Multiple ==> forall x :: x in r ==> x !in PackageIds(catalog)
    ensures category.selectionType == Multiple ==> (id in r <==> id !in selectedIds && id !in PackageIds(catalog))
    ensures AtMostOnePackage(r, PackageIds(catalog))
  {
    if category.selectionType == Single then
      [id]
    else
      RemoveIds(Toggle(selectedIds, id), PackageIds(catalog))
  }

  /** No two positions of `s` both hold a package id. */
  predicate AtMostOnePackage(s: seq<string>, packageIds: seq<string>) {
    forall i, j :: 0 <= i < j < |s| && s[i] in packageIds ==> s[j] !in packageIds
  }

  /** `a` is `b` with some elements left out, the rest in their order. */
  ghost predicate IsSubsequence(a: seq<string>, b: seq<string>)
    decreases |b|
  {
    if a == [] then true
    else if b == [] then false
    else (a[0] == b[0] && IsSubsequence(a[1..], b[1..])) || IsSubsequence(a, b[1..])
  }

  /** Filtering keeps every copy of a kept id and no copy of a dropped one. */
  lemma {:induction false} RemoveIdsCounts(s: seq<string>, drop: seq<string>)
    ensures forall x :: multiset(RemoveIds(s, drop))[x] == if x in drop then 0 else multiset(s)[x]
    decreases |s|
  {
    if s != [] {
      assert s == [s[0]] + s[1..];
      RemoveIdsCounts(s[1..], drop);
    }
  }

  lemma {:induction false} RemoveIdsIsSubsequence(s: seq<string>, drop: seq<string>)
    ensures IsSubsequence(RemoveIds(s, drop), s)
    decreases |s|
  {
    if s != [] {
      RemoveIdsIsSubsequence(s[1..], drop);
      if s[0] !in drop {
        assert ([s[0]] + RemoveIds(s[1..], drop))[1..] == RemoveIds(s[1..], drop);
      }
    }
  }

  lemma {:induction false} RemoveIdsAppend(a: seq<string>, b: seq<string>, drop: seq<string>)
    ensures RemoveIds(a + b, drop) == RemoveIds(a, drop) + RemoveIds(b, drop)
    decreases |a|
  {
    if a == [] {
      assert a + b == b;
    } else {
      assert (a + b)[1..] == a[1..] + b;
      RemoveIdsAppend(a[1..], b, drop);
    }
  }

  lemma {:induction false} RemoveIdsTwice(s: seq<string>, first: seq<string>, second: seq<string>)
    ensures RemoveIds(RemoveIds(s, first), second) == RemoveIds(s, first + second)
    decreases |s|
  {
    if s != [] {
      RemoveIdsTwice(s[1..], first, second);
    }
  }

  /** Dropping ids that do not occur leaves the list as it is. */
  lemma {:induction false} RemoveAbsentIds(s: seq<string>, drop: seq<string>)
    requires forall x :: x in drop ==> x !in s
    ensures RemoveIds(s, drop) == s
    decreases |s|
  {
    if s != [] {
      RemoveAbsentIds(s[1..], drop);
    }
  }

  lemma {:induction false} RemoveIdsIgnoresAbsent(s: seq<string>, drop: seq<string>, x: string)
    requires x !in s
    ensures RemoveIds(s, drop + [x]) == RemoveIds(s, drop)
    decreases |s|
  {
    if s != [] {
      RemoveIdsIgnoresAbsent(s[1..], drop, x);
    }
  }

  /** Picking a selected id in a `'multiple'` category removes every occurrence of
      it and every package id, and keeps the rest. */
  lemma DeselectShape(catalog: seq<ProductCategory>, selectedIds: seq<string>, id: string,
                      category: ProductCategory)
    requires category.selectionType == Multiple && id in selectedIds
    ensures HandleSelection(catalog, selectedIds, id, category) == RemoveIds(selectedIds, PackageIds(catalog) + [id])
    ensures id !in HandleSelection(catalog, selectedIds, id, category)
  {
    var pkg := PackageIds(catalog);
    assert HandleSelection(catalog, selectedIds, id, category) == RemoveIds(RemoveIds(selectedIds, [id]), pkg);
    RemoveIdsTwice(selectedIds, [id], pkg);
    RemoveIdsOrderFree(selectedIds, [id], pkg);
  }

  /** Picking an unselected id in a `'multiple'` category keeps the other
      non-package ids and adds `id` at the end unless it is a package id. */
  lemma SelectShape(catalog: seq<ProductCategory>, selectedIds: seq<string>, id: string,
                    category: ProductCategory)
    requires category.selectionType == Multiple && id !in selectedIds
    ensures HandleSelection(catalog, selectedIds, id, category)
         == RemoveIds(selectedIds, PackageIds(catalog) + [id]) + RemoveIds([id], PackageIds(catalog))
  {
    var pkg := PackageIds(catalog);
    assert HandleSelection(catalog, selectedIds, id, category) == RemoveIds(selectedIds + [id], pkg);
    RemoveIdsAppend(selectedIds, [id], pkg);
    RemoveIdsIgnoresAbsent(selectedIds, pkg, id);
  }

  /** A pick in a `'multiple'` category keeps every other non-package id in its
      original order, and appends `id` exactly when it is newly selected and not a package. */
  lemma MultipleSelectionShape(catalog: seq<ProductCategory>, selectedIds: seq<string>, id: string,
                               category: ProductCategory)
    requires category.selectionType == Multiple
    ensures HandleSelection(catalog, selectedIds, id, category)
         == RemoveIds(selectedIds, PackageIds(catalog) + [id])
          + (if id in selectedIds || id in PackageIds(catalog) then [] else [id])
    ensures IsSubsequence(RemoveIds(selectedIds, PackageIds(catalog) + [id]), selectedIds)
  {
    var pkg := PackageIds(catalog);
    var kept := RemoveIds(selectedIds, pkg + [id]);
    RemoveIdsIsSubsequence(selectedIds, pkg + [id]);
    if id in selectedIds {
      DeselectShape(catalog, selectedIds, id, category);
      assert kept + [] == kept;
    } else {
      SelectShape(catalog, selectedIds, id, category);
      assert [id][1..] == [];
      if id in pkg {
        assert RemoveIds([id], pkg) == [];
        assert kept + [] == kept;
      } else {
        assert RemoveIds([id], pkg) == [id];
      }
    }
  }

  lemma {:induction false} RemoveIdsOrderFree(s: seq<string>, a: seq<string>, b: seq<string>)
    ensures RemoveIds(s, a + b) == RemoveIds(s, b + a)
    decreases |s|
  {
    if s != [] {
      RemoveIdsOrderFree(s[1..], a, b);
    }
  }

  /** Picking an unselected non-package id appends it at the end. */
  lemma SelectAppends(catalog: seq<ProductCategory>, selectedIds: seq<string>, id: string,
                      category: ProductCategory)
    requires category.selectionType == Multiple && id !in selectedIds && id !in PackageIds(catalog)
    ensures var r := HandleSelection(catalog, selectedIds, id, category);
      |r| > 0 && r[|r| - 1] == id && r[..|r| - 1] == RemoveIds(selectedIds, PackageIds(catalog))
  {
    var pkg := PackageIds(catalog);
    RemoveIdsAppend(selectedIds, [id], pkg);
    assert [id][1..] == [];
    assert RemoveIds([id], pkg) == [id];
    assert HandleSelection(catalog, selectedIds, id, category) == RemoveIds(selectedIds, pkg) + [id];
  }

  /** From a package-free selection lacking a non-package id, picking that id twice
      in a `'multiple'` category gives back the selection. */
  lemma {:induction false} ToggleTwiceRestores(catalog: seq<ProductCategory>, selectedIds: seq<string>,
                                               id: string, category: ProductCategory)
    requires category.selectionType == Multiple
    requires forall x :: x in selectedIds ==> x !in PackageIds(catalog)
    requires id !in selectedIds && id !in PackageIds(catalog)
    ensures HandleSelection(catalog, HandleSelection(catalog, selectedIds, id, category), id, category)
         == selectedIds
  {
    var pkg := PackageIds(catalog);
    RemoveAbsentIds(selectedIds + [id], pkg);
    assert HandleSelection(catalog, selectedIds, id, category) == selectedIds + [id];
    RemoveIdsAppend(selectedIds, [id], [id]);
    RemoveAbsentIds(selectedIds, [id]);
    assert RemoveIds([id], [id]) == [];
    assert Toggle(selectedIds + [id], id) == selectedIds;
    RemoveAbsentIds(selectedIds, pkg);
  }

  /** Without a `'single'` category there are no package ids, and a `'multiple'`
      pick is a plain toggle. */
  lemma NoSingleCategoryPlainToggle(catalog: seq<ProductCategory>, selectedIds: seq<string>, id: string,
                                    category: ProductCategory)
    requires forall k :: 0 <= k < |catalog| ==> catalog[k].selectionType == Multiple
    requires category.selectionType == Multiple
    ensures PackageIds(catalog) == []
    ensures HandleSelection(catalog, selectedIds, id, category) == Toggle(selectedIds, id)
  {
    RemoveAbsentIds(Toggle(selectedIds, id), []);
  }

  /** In the shipped catalog the package ids are those of SOLO, CREW and FLEET. */
  lemma CatalogPackageIds()
    ensures PackageIds(ProductsConfig) == ["solo", "crew", "fleet"]
  {
  }
}
