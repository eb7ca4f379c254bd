/** The slice of Shopify's product records the admin routes read: the product's global id,
    title, tags and the metafields of the "custom" namespace. */
module Shop {
  import opened Js

  /** One metafield node; its value may be null. */
  datatype MetafieldNode = MetafieldNode(key: string, value: Option<string>)

  /** A product node. `tags` and the metafield connection may be missing from the response. */
  datatype Product = Product(
    id: string,
    title: string,
    tags: Option<seq<string>>,
    metafields: Option<seq<MetafieldNode>>)

  /** `metafields.find(m => m.key === "options")`, as a position. */
  function FindOptionsNode(nodes: seq<MetafieldNode>): (r: Option<nat>)
    ensures r.Some? ==> r.value < |nodes| && nodes[r.value].key == "options"
                        && forall i :: 0 <= i < r.value ==> nodes[i].key != "options"
    ensures r.None? <==> forall i :: 0 <= i < |nodes| ==> nodes[i].key != "options"
  {
    if nodes == [] then None
    else if nodes[0].key == "options" then Some(0)
    else
      var rest := FindOptionsNode(nodes[1..]);
      if rest.Some? then Some(rest.value + 1) else None
  }

  /** `id.split("/").pop()`: the text after the last slash, or the whole id when it has none. */
  function LastSegment(id: string): (r: string)
    ensures |r| <= |id| && r == id[|id| - |r|..]
    ensures forall i :: 0 <= i < |r| ==> r[i] != '/'
    ensures |r| < |id| ==> id[|id| - |r| - 1] == '/'
  {
    if id == [] then []
    else if id[|id| - 1] == '/' then []
    else LastSegment(id[..|id| - 1]) + [id[|id| - 1]]
  }

  /** Whatever precedes the last slash, the segment after it is returned whole. */
  lemma {:induction false} LastSegmentAfterSlash(prefix: string, n: string)
    requires prefix != [] && prefix[|prefix| - 1] == '/'
    requires forall i :: 0 <= i < |n| ==> n[i] != '/'
    ensures LastSegment(prefix + n) == n
    decreases |n|
  {
    if n == [] {
      assert prefix + n == prefix;
    } else {
      var id := prefix + n;
      var front := n[..|n| - 1];
      assert id[..|id| - 1] == prefix + front;
      assert id[|id| - 1] == n[|n| - 1];
      LastSegmentAfterSlash(prefix, front);
      assert n == front + [n[|n| - 1]];
    }
  }

  /** A Shopify product gid `gid://shopify/Product/<n>` yields its numeric part `<n>`. */
  lemma LastSegmentOfGid(n: string)
    requires forall i :: 0 <= i < |n| ==> n[i] != '/'
    ensures LastSegment("gid://shopify/Product/" + n) == n
  {
    LastSegmentAfterSlash("gid://shopify/Product/", n);
  }
}
