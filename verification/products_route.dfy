/** The product list page: the search and tag filter over the loaded products, and the
    initial value it hands to the customizer editor of an expanded product. */
module ProductsRoute {
  import opened Js
  import opened Shop

  const CustomizerTag := "product-customizer"

  /** The filter's condition: the lower-cased title contains the lower-cased search term, and,
      when the tag filter is on, the product's tags include `product-customizer`. */
  predicate Keep(p: Product, searchTerm: string, filterByTag: bool) {
    && Contains(Lower(p.title), Lower(searchTerm))
    && (!filterByTag || (p.tags.Some? && CustomizerTag in p.tags.value))
  }

  /** `products.filter(...)`. */
  function FilteredProducts(products: seq<Product>, searchTerm: string, filterByTag: bool): (r: seq<Product>)
    ensures |r| <= |products|
  {
    if products == [] then []
    else
      var rest := FilteredProducts(products[1..], searchTerm, filterByTag);
      if Keep(products[0], searchTerm, filterByTag) then [products[0]] + rest else rest
  }

  /** `a` is `b` with some elements left out, the rest in their original order. */
  predicate IsSubsequence<T(==)>(a: seq<T>, b: seq<T>) {
    a == [] || (b != [] && ((a[0] == b[0] && IsSubsequence(a[1..], b[1..])) || IsSubsequence(a, b[1..])))
  }

  /** The filtered list keeps the products' order. */
  lemma {:induction false} FilterKeepsOrder(products: seq<Product>, searchTerm: string, filterByTag: bool)
    ensures IsSubsequence(FilteredProducts(products, searchTerm, filterByTag), products)
  {
    if products != [] {
      FilterKeepsOrder(products[1..], searchTerm, filterByTag);
    }
  }

  /** A product is listed exactly when it is one of the loaded products and meets the condition. */
  lemma {:induction false} FilterMembership(products: seq<Product>, searchTerm: string, filterByTag: bool, p: Product)
    ensures p in FilteredProducts(products, searchTerm, filterByTag) <==> p in products && Keep(p, searchTerm, filterByTag)
  {
    if products != [] {
      FilterMembership(products[1..], searchTerm, filterByTag, p);
      assert products == [products[0]] + products[1..];
    }
  }

  /** With an empty search and the tag filter off, every product is listed. */
  lemma {:induction false} EmptySearchListsAll(products: seq<Product>)
    ensures FilteredProducts(products, "", false) == products
  {
    if products != [] {
      ContainsEmpty(Lower(products[0].title));
      EmptySearchListsAll(products[1..]);
    }
  }

  /** The editor's initial value: the value of the first `options` metafield when it is a
      non-empty string, `"[]"` otherwise (also when the connection is missing). */
  function InitialValue(metafields: Option<seq<MetafieldNode>>): (r: string)
    ensures r != ""
    ensures metafields.None? ==> r == "[]"
    ensures metafields.Some? && FindOptionsNode(metafields.value).None? ==> r == "[]"
  {
    var nodes := if metafields.Some? then metafields.value else [];
    var found := FindOptionsNode(nodes);
    if found.Some? && nodes[found.value].value.Some? && nodes[found.value].value.value != ""
    then nodes[found.value].value.value
    else "[]"
  }

  /** The initial value comes from the first `options` metafield: a later one never wins. */
  lemma InitialValueFromFirstOptions(nodes: seq<MetafieldNode>, i: nat)
    requires i < |nodes| && nodes[i].key == "options" && nodes[i].value.Some? && nodes[i].value.value != ""
    requires forall j :: 0 <= j < i ==> nodes[j].key != "options"
    ensures InitialValue(Some(nodes)) == nodes[i].value.value
  {
    var found := FindOptionsNode(nodes);
    assert found.Some?;
    assert found.value == i;
  }
}
