/** The product catalogue and its category filter. */
module Catalogue {
  import opened Pricing

  /** The filter value that selects every product. */
  const AllCategories: string := "all"

  /** `a` can be obtained from `b` by deleting elements, keeping their order. */
  ghost predicate IsSubsequence<T>(a: seq<T>, b: seq<T>)
    decreases |b|
  {
    if |a| == 0 then true
    else if |b| == 0 then false
    else (a[0] == b[0] && IsSubsequence(a[1..], b[1..])) || IsSubsequence(a, b[1..])
  }

  /** The products of one category, in catalogue order. */
  function KeepCategory(products: seq<Product>, category: string): (r: seq<Product>)
    ensures forall i :: 0 <= i < |r| ==> r[i].category == category
    ensures forall p :: multiset(r)[p] == if p.category == category then multiset(products)[p] else 0
    ensures IsSubsequence(r, products)
    decreases |products|
  {
    if |products| == 0 then []
    else
      var rest := KeepCategory(products[1..], category);
      assert products == [products[0]] + products[1..];
      if products[0].category == category then
        var r := [products[0]] + rest;
        assert r[1..] == rest;
        r
      else rest
  }

  /** The list the products tab shows for a filter value: every product for
      "all", otherwise only those whose category equals the filter. */
  function FilterByCategory(products: seq<Product>, filter: string): (r: seq<Product>)
    ensures filter == AllCategories ==> r == products
    ensures filter != AllCategories ==> forall i :: 0 <= i < |r| ==> r[i].category == filter
    ensures filter != AllCategories ==>
              forall p :: multiset(r)[p] == if p.category == filter then multiset(products)[p] else 0
    ensures IsSubsequence(r, products)
  {
    SubsequenceReflexive(products);
    if filter == AllCategories then products else KeepCategory(products, filter)
  }

  lemma {:induction false} SubsequenceReflexive<T>(s: seq<T>)
    ensures IsSubsequence(s, s)
    decreases |s|
  {
    if |s| > 0 {
      SubsequenceReflexive(s[1..]);
    }
  }

  /** Filtering twice by the same value is the same as filtering once. */
  lemma {:induction false} FilterIdempotent(products: seq<Product>, filter: string)
    ensures FilterByCategory(FilterByCategory(products, filter), filter) == FilterByCategory(products, filter)
  {
    if filter != AllCategories {
      KeepCategoryIdempotent(products, filter);
    }
  }

  lemma {:induction false} KeepCategoryIdempotent(products: seq<Product>, category: string)
    ensures KeepCategory(KeepCategory(products, category), category) == KeepCategory(products, category)
    decreases |products|
  {
    if |products| > 0 {
      KeepCategoryIdempotent(products[1..], category);
      var rest := KeepCategory(products[1..], category);
      if products[0].category == category {
        assert ([products[0]] + rest)[1..] == rest;
      }
    }
  }

  /** A category no product carries yields an empty list, not an error; this
      is the case in which the products tab shows its "no products" message. */
  lemma FilterNoMatch(products: seq<Product>, filter: string)
    requires filter != AllCategories
    requires forall i :: 0 <= i < |products| ==> products[i].category != filter
    ensures FilterByCategory(products, filter) == []
  {
  }
}
