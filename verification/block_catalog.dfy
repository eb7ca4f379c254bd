/** The bulk editor's catalogue of blocks (`allBlocks`): every non-config block with an id
    found in the loaded products' stored configurations, one entry per id, with the number of
    products that carry it and their numeric ids, in the order the ids are first met. */
module BlockCatalog {
  import opened Js
  import opened Blocks
  import opened Shop

  /** `{ id, type, title, count, products }`. */
  datatype BlockSummary = BlockSummary(id: string, kind: string, title: string, count: nat, products: seq<string>)

  /** One listed block met in one product: the product's numeric id and what the entry for
      the block's id keeps of it. */
  datatype Occurrence = Occurrence(product: string, id: string, kind: string, title: string)

  /** `block.type !== "config" && block.id`. */
  predicate Listed(b: Block) {
    !IsConfig(b) && HasTruthyId(b)
  }

  /** The occurrences of one configuration's listed blocks, in order. */
  function BlockOccurrences(product: string, config: seq<Block>): (r: seq<Occurrence>)
    ensures |r| <= |config|
  {
    if config == [] then []
    else
      var b := config[|config| - 1];
      BlockOccurrences(product, config[..|config| - 1])
        + (if Listed(b) then [Occurrence(product, b.id.value, b.kind, b.title)] else [])
  }

  /** A product contributes its blocks when its first `options` metafield holds a list; a
      missing metafield, a null value, a value that does not parse and a value that is not
      a list contribute nothing (the last three throw inside the `try` and are skipped). A
      product without the metafield connection is outside what the page handles; it is
      given no blocks here. */
  function ProductOccurrences(p: Product, parse: JsonParse<Block>): seq<Occurrence> {
    if p.metafields.None? then []
    else
      var nodes := p.metafields.value;
      var found := FindOptionsNode(nodes);
      if found.None? || nodes[found.value].value.None? then []
      else
        var parsed := parse(nodes[found.value].value.value);
        if parsed.JsonArray? then BlockOccurrences(LastSegment(p.id), parsed.items) else []
  }

  function Occurrences(products: seq<Product>, parse: JsonParse<Block>): seq<Occurrence> {
    if products == [] then []
    else Occurrences(products[..|products| - 1], parse) + ProductOccurrences(products[|products| - 1], parse)
  }

  /** The position of the entry for `id`. */
  function EntryIndex(entries: seq<BlockSummary>, id: string): (r: Option<nat>)
    ensures r.Some? ==> r.value < |entries| && entries[r.value].id == id
    ensures r.None? ==> forall i :: 0 <= i < |entries| ==> entries[i].id != id
  {
    if entries == [] then None
    else if entries[|entries| - 1].id == id then Some(|entries| - 1)
    else EntryIndex(entries[..|entries| - 1], id)
  }

  /** One step of `config.forEach`: open an entry for a new id, or count the product again. */
  function AddOccurrence(entries: seq<BlockSummary>, o: Occurrence): seq<BlockSummary> {
    match EntryIndex(entries, o.id)
    case None => entries + [BlockSummary(o.id, o.kind, o.title, 1, [o.product])]
    case Some(k) => entries[k := entries[k].(count := entries[k].count + 1, products := entries[k].products + [o.product])]
  }

  function AddAll(entries: seq<BlockSummary>, occs: seq<Occurrence>): seq<BlockSummary> {
    if occs == [] then entries
    else AddOccurrence(AddAll(entries, occs[..|occs| - 1]), occs[|occs| - 1])
  }

  /** `Array.from(blockMap.values())`. */
  function Catalog(products: seq<Product>, parse: JsonParse<Block>): seq<BlockSummary> {
    AddAll([], Occurrences(products, parse))
  }

  lemma AddAllSnoc(entries: seq<BlockSummary>, occs: seq<Occurrence>, extra: seq<Occurrence>)
    ensures AddAll(entries, occs + extra) == AddAll(AddAll(entries, occs), extra)
    decreases |extra|
  {
    if extra == [] {
      assert occs + extra == occs;
    } else {
      assert (occs + extra)[..|occs + extra| - 1] == occs + extra[..|extra| - 1];
      AddAllSnoc(entries, occs, extra[..|extra| - 1]);
    }
  }

  /** The products (numeric ids) of the occurrences of `id`, in order. */
  function ProductsOf(occs: seq<Occurrence>, id: string): seq<string> {
    if occs == [] then []
    else ProductsOf(occs[..|occs| - 1], id) + (if occs[|occs| - 1].id == id then [occs[|occs| - 1].product] else [])
  }

  /** The first occurrence of `id`. */
  function FirstOf(occs: seq<Occurrence>, id: string): (r: Option<Occurrence>)
    ensures r.Some? ==> r.value.id == id
  {
    if occs == [] then None
    else
      var before := FirstOf(occs[..|occs| - 1], id);
      if before.Some? then before
      else if occs[|occs| - 1].id == id then Some(occs[|occs| - 1])
      else None
  }

  /** The entry for an id keeps the type and title of the block first met with that id, and
      counts and lists every product it was met in. */
  ghost predicate Summarises(e: BlockSummary, occs: seq<Occurrence>) {
    && FirstOf(occs, e.id).Some?
    && e.kind == FirstOf(occs, e.id).value.kind
    && e.title == FirstOf(occs, e.id).value.title
    && e.products == ProductsOf(occs, e.id)
    && e.count == |e.products|
  }

  /** The entries describe the occurrences: one entry per id, each summarising its
      occurrences, and every occurrence's id has an entry. */
  ghost predicate Describes(entries: seq<BlockSummary>, occs: seq<Occurrence>) {
    && (forall i, j :: 0 <= i < j < |entries| ==> entries[i].id != entries[j].id)
    && (forall i :: 0 <= i < |entries| ==> Summarises(entries[i], occs))
    && (forall k :: 0 <= k < |occs| ==> EntryIndex(entries, occs[k].id).Some?)
  }

  lemma FirstOfNone(occs: seq<Occurrence>, id: string)
    requires forall k :: 0 <= k < |occs| ==> occs[k].id != id
    ensures FirstOf(occs, id).None? && ProductsOf(occs, id) == []
  {
    if occs != [] {
      FirstOfNone(occs[..|occs| - 1], id);
    }
  }

  /** An entry for another id is not affected by a new occurrence. */
  lemma SummarisesOther(e: BlockSummary, occs: seq<Occurrence>, o: Occurrence)
    requires Summarises(e, occs) && e.id != o.id
    ensures Summarises(e, occs + [o])
  {
    var all := occs + [o];
    assert all[..|all| - 1] == occs;
  }

  /** The entry for the occurrence's id counts it once more and lists its product last. */
  lemma SummarisesCounted(e: BlockSummary, occs: seq<Occurrence>, o: Occurrence)
    requires Summarises(e, occs) && e.id == o.id
    ensures Summarises(e.(count := e.count + 1, products := e.products + [o.product]), occs + [o])
  {
    var all := occs + [o];
    assert all[..|all| - 1] == occs;
  }

  /** The first occurrence of an id opens its entry. */
  lemma SummarisesNew(occs: seq<Occurrence>, o: Occurrence)
    requires forall k :: 0 <= k < |occs| ==> occs[k].id != o.id
    ensures Summarises(BlockSummary(o.id, o.kind, o.title, 1, [o.product]), occs + [o])
  {
    var all := occs + [o];
    assert all[..|all| - 1] == occs;
    FirstOfNone(occs, o.id);
  }

  lemma AddNewOccurrenceDescribes(entries: seq<BlockSummary>, occs: seq<Occurrence>, o: Occurrence)
    requires Describes(entries, occs) && EntryIndex(entries, o.id).None?
    ensures Describes(AddOccurrence(entries, o), occs + [o])
  {
    var all := occs + [o];
    var r := AddOccurrence(entries, o);
    assert r == entries + [BlockSummary(o.id, o.kind, o.title, 1, [o.product])];
    assert forall k :: 0 <= k < |occs| ==> occs[k].id != o.id by {
      forall k | 0 <= k < |occs| ensures occs[k].id != o.id {
        assert EntryIndex(entries, occs[k].id).Some?;
      }
    }
    forall i | 0 <= i < |r| ensures Summarises(r[i], all) {
      if i < |entries| {
        SummarisesOther(entries[i], occs, o);
      } else {
        SummarisesNew(occs, o);
      }
    }
    forall k | 0 <= k < |all| ensures EntryIndex(r, all[k].id).Some? {
      if k < |occs| {
        var m := EntryIndex(entries, occs[k].id).value;
        assert r[m].id == all[k].id;
        EntryIndexFinds(r, m);
      } else {
        EntryIndexFinds(r, |entries|);
      }
    }
  }

  lemma AddKnownOccurrenceDescribes(entries: seq<BlockSummary>, occs: seq<Occurrence>, o: Occurrence, m: nat)
    requires Describes(entries, occs) && EntryIndex(entries, o.id) == Some(m)
    ensures Describes(AddOccurrence(entries, o), occs + [o])
  {
    var all := occs + [o];
    var r := AddOccurrence(entries, o);
    assert r == entries[m := entries[m].(count := entries[m].count + 1, products := entries[m].products + [o.product])];
    forall i | 0 <= i < |r| ensures Summarises(r[i], all) {
      if i == m {
        SummarisesCounted(entries[m], occs, o);
      } else {
        SummarisesOther(entries[i], occs, o);
      }
    }
    forall k | 0 <= k < |all| ensures EntryIndex(r, all[k].id).Some? {
      if k < |occs| {
        var n := EntryIndex(entries, occs[k].id).value;
        assert r[n].id == all[k].id;
        EntryIndexFinds(r, n);
      } else {
        EntryIndexFinds(r, m);
      }
    }
  }

  lemma AddOccurrenceDescribes(entries: seq<BlockSummary>, occs: seq<Occurrence>, o: Occurrence)
    requires Describes(entries, occs)
    ensures Describes(AddOccurrence(entries, o), occs + [o])
  {
    match EntryIndex(entries, o.id)
    case None => AddNewOccurrenceDescribes(entries, occs, o);
    case Some(m) => AddKnownOccurrenceDescribes(entries, occs, o, m);
  }

  lemma EntryIndexFinds(entries: seq<BlockSummary>, i: nat)
    requires i < |entries|
    ensures EntryIndex(entries, entries[i].id).Some?
  {
  }

  /** Folding the occurrences into an empty catalogue describes them. */
  lemma {:induction false} AddAllDescribes(occs: seq<Occurrence>)
    ensures Describes(AddAll([], occs), occs)
  {
    if occs != [] {
      var n := |occs| - 1;
      AddAllDescribes(occs[..n]);
      AddOccurrenceDescribes(AddAll([], occs[..n]), occs[..n], occs[n]);
      assert occs[..n] + [occs[n]] == occs;
    }
  }

  /** allBlocks lists each id once; each entry's count is the number of products listed for
      it, which are those whose configuration holds the id, in order; its type and title are
      those of the block first met; and every listed block of every readable configuration
      has an entry. */
  lemma CatalogSummarises(products: seq<Product>, parse: JsonParse<Block>)
    ensures var entries := Catalog(products, parse);
            var occs := Occurrences(products, parse);
            && (forall i, j :: 0 <= i < j < |entries| ==> entries[i].id != entries[j].id)
            && (forall i :: 0 <= i < |entries| ==>
                  && entries[i].count == |entries[i].products| >= 1
                  && entries[i].products == ProductsOf(occs, entries[i].id)
                  && FirstOf(occs, entries[i].id).Some?
                  && entries[i].kind == FirstOf(occs, entries[i].id).value.kind
                  && entries[i].title == FirstOf(occs, entries[i].id).value.title)
            && (forall k :: 0 <= k < |occs| ==> exists i :: 0 <= i < |entries| && entries[i].id == occs[k].id)
  {
    var occs := Occurrences(products, parse);
    var entries := Catalog(products, parse);
    AddAllDescribes(occs);
    forall i | 0 <= i < |entries|
      ensures entries[i].count == |entries[i].products| >= 1
    {
      assert Summarises(entries[i], occs);
      ProductsOfFirst(occs, entries[i].id);
    }
    forall k | 0 <= k < |occs|
      ensures exists i :: 0 <= i < |entries| && entries[i].id == occs[k].id
    {
      var i := EntryIndex(entries, occs[k].id).value;
      assert entries[i].id == occs[k].id;
    }
  }

  /** An id that has a first occurrence has at least one product. */
  lemma {:induction false} ProductsOfFirst(occs: seq<Occurrence>, id: string)
    requires FirstOf(occs, id).Some?
    ensures |ProductsOf(occs, id)| >= 1
  {
    var n := |occs| - 1;
    if FirstOf(occs[..n], id).Some? {
      ProductsOfFirst(occs[..n], id);
    }
  }

  /** The ids of the entries, in order. */
  function Ids(entries: seq<BlockSummary>): (r: seq<string>)
    ensures |r| == |entries| && forall i :: 0 <= i < |entries| ==> r[i] == entries[i].id
  {
    if entries == [] then [] else Ids(entries[..|entries| - 1]) + [entries[|entries| - 1].id]
  }

  /** The distinct ids of the occurrences, in the order they are first met. */
  function FirstSeen(occs: seq<Occurrence>): seq<string> {
    if occs == [] then []
    else
      var before := FirstSeen(occs[..|occs| - 1]);
      if occs[|occs| - 1].id in before then before else before + [occs[|occs| - 1].id]
  }

  lemma AddOccurrenceIds(entries: seq<BlockSummary>, o: Occurrence)
    ensures Ids(AddOccurrence(entries, o))
            == if o.id in Ids(entries) then Ids(entries) else Ids(entries) + [o.id]
  {
    var ids := Ids(entries);
    match EntryIndex(entries, o.id)
    case None =>
      assert o.id !in ids;
      assert Ids(AddOccurrence(entries, o)) == ids + [o.id];
    case Some(k) =>
      assert ids[k] == o.id;
      assert Ids(AddOccurrence(entries, o)) == ids;
  }

  /** The entries come in the order their ids are first met. */
  lemma {:induction false} CatalogInFirstSeenOrder(occs: seq<Occurrence>)
    ensures Ids(AddAll([], occs)) == FirstSeen(occs)
  {
    if occs != [] {
      var n := |occs| - 1;
      CatalogInFirstSeenOrder(occs[..n]);
      AddOccurrenceIds(AddAll([], occs[..n]), occs[n]);
    }
  }

  /** A product without an `options` metafield, or whose value is null, does not parse or is
      not a list, leaves the catalogue as it was. */
  lemma UnreadableProductSkipped(products: seq<Product>, p: Product, parse: JsonParse<Block>)
    requires p.metafields.Some?
    requires var nodes := p.metafields.value;
             var found := FindOptionsNode(nodes);
             found.None? || nodes[found.value].value.None? || !parse(nodes[found.value].value.value).JsonArray?
    ensures Catalog(products + [p], parse) == Catalog(products, parse)
  {
    assert (products + [p])[..|products|] == products;
    assert Occurrences(products + [p], parse) == Occurrences(products, parse) + [];
    assert Occurrences(products, parse) + [] == Occurrences(products, parse);
  }

  /** The configuration of one product feeds the catalogue block by block. */
  method AddBlocks(entries: seq<BlockSummary>, product: string, config: seq<Block>) returns (r: seq<BlockSummary>)
    ensures r == AddAll(entries, BlockOccurrences(product, config))
  {
    r := entries;
    var j := 0;
    while j < |config|
      invariant j <= |config|
      invariant r == AddAll(entries, BlockOccurrences(product, config[..j]))
    {
      assert config[..j + 1][..j] == config[..j];
      var b := config[j];
      var before := BlockOccurrences(product, config[..j]);
      if Listed(b) {
        var o := Occurrence(product, b.id.value, b.kind, b.title);
        assert BlockOccurrences(product, config[..j + 1]) == before + [o];
        assert (before + [o])[..|before|] == before;
        r := AddOccurrence(r, o);
      } else {
        assert BlockOccurrences(product, config[..j + 1]) == before + [];
        assert before + [] == before;
      }
      j := j + 1;
    }
    assert config[..j] == config;
  }

  /** What one product adds to the catalogue. */
  method AddProduct(entries: seq<BlockSummary>, p: Product, parse: JsonParse<Block>) returns (r: seq<BlockSummary>)
    requires p.metafields.Some?
    ensures r == AddAll(entries, ProductOccurrences(p, parse))
  {
    r := entries;
    var nodes := p.metafields.value;
    var found := FindOptionsNode(nodes);
    if found.Some? && nodes[found.value].value.Some? {
      var parsed := parse(nodes[found.value].value.value);
      if parsed.JsonArray? {
        r := AddBlocks(entries, LastSegment(p.id), parsed.items);
      }
    }
  }

  /** The `useMemo` computing allBlocks. Every product of the page's query carries its
      metafield connection; the source reads it without a guard. */
  method AllBlocks(products: seq<Product>, parse: JsonParse<Block>) returns (entries: seq<BlockSummary>)
    requires forall i :: 0 <= i < |products| ==> products[i].metafields.Some?
    ensures entries == Catalog(products, parse)
  {
    entries := [];
    var i := 0;
    while i < |products|
      invariant i <= |products|
      invariant entries == AddAll([], Occurrences(products[..i], parse))
    {
      assert products[..i + 1][..i] == products[..i];
      AddAllSnoc([], Occurrences(products[..i], parse), ProductOccurrences(products[i], parse));
      entries := AddProduct(entries, products[i], parse);
      i := i + 1;
    }
    assert products[..i] == products;
  }
}
