/** The checkout pricing engine of the cart-transform function: the configuration's unit price
    plus every `added` amount of the selected picker options (and of the selected options of
    the nested pickers their selection opens), times the SUM of the selected `multiplier`
    values (1 when that sum is 0), times the width entered in the first enabled area block. */
module CartPricing {
  import opened Js
  import opened Blocks

  /** The two running totals of the engine: `addedSum` and `multiplierValueSum`. */
  datatype Sums = Sums(added: real, multiplier: real)

  const NoSums := Sums(0.0, 0.0)

  function Plus(a: Sums, b: Sums): Sums {
    Sums(a.added + b.added, a.multiplier + b.multiplier)
  }

  /** The totals of a list walked in order, each element adding `f` of itself. */
  function SumMap<T>(xs: seq<T>, f: T -> Sums): Sums {
    if xs == [] then NoSums else Plus(SumMap(xs[..|xs| - 1], f), f(xs[|xs| - 1]))
  }

  /** `processPricing(pricing)`: a missing rule and mode "none" add nothing; "added" adds the
      value to the added sum, "multiplier" to the multiplier sum; any other mode adds nothing. */
  function RuleSums(pricing: Option<Rule>, pf: ParseFloat): Sums {
    if pricing.None? || pricing.value.mode == "none" then NoSums
    else
      var value := ToNumber(pricing.value.value, 0.0, pf);
      if pricing.value.mode == "added" then Sums(value, 0.0)
      else if pricing.value.mode == "multiplier" then Sums(0.0, value)
      else NoSums
  }

  /** What a selected option adds: its rule, or, when it has none, its legacy `added` amount. */
  function OptionSums(o: PickerOption, pf: ParseFloat): Sums {
    if o.pricing.Some? then RuleSums(o.pricing, pf) else Sums(ToNumber(o.added, 0.0, pf), 0.0)
  }

  /** What a picker adds for a truthy selection: the matching option's sums, or nothing. */
  function PickerSums(options: seq<PickerOption>, sel: JsValue, pf: ParseFloat): Sums {
    var o := FindOption(options, sel);
    if o.Some? then OptionSums(o.value, pf) else NoSums
  }

  /** One item of an active nested group: read with its own id, skipped when falsy. Items are
      not checked for `enabled` or `type`. */
  function ItemSums(item: Block, selections: Selections, pf: ParseFloat): Sums {
    var subSel := Lookup(selections, item.id);
    if Truthy(subSel) then PickerSums(item.options, subSel, pf) else NoSums
  }

  function ItemsSums(items: seq<Block>, selections: Selections, pf: ParseFloat): Sums {
    SumMap(items, item => ItemSums(item, selections, pf))
  }


  function GroupSums(g: NestedGroup, sel: JsValue, selections: Selections, pf: ParseFloat): Sums {
    if GroupActive(g, sel) then ItemsSums(g.items, selections, pf) else NoSums
  }

  /** Every nested group whose trigger equals the parent's selection is evaluated, in order. */
  function GroupsSums(groups: seq<NestedGroup>, sel: JsValue, selections: Selections, pf: ParseFloat): Sums {
    SumMap(groups, g => GroupSums(g, sel, selections, pf))
  }

  /** One top-level block: only an enabled picker with a truthy selection adds anything. */
  function BlockSums(b: Block, selections: Selections, pf: ParseFloat): Sums {
    var sel := Lookup(selections, b.id);
    if !b.enabled || b.kind != "picker" || !Truthy(sel) then NoSums
    else
      var nested := if b.isNested && b.nested.Some? then GroupsSums(b.nested.value, sel, selections, pf) else NoSums;
      Plus(PickerSums(b.options, sel, pf), nested)
  }

  function ConfigSums(blocks: seq<Block>, selections: Selections, pf: ParseFloat): Sums {
    SumMap(blocks, b => BlockSums(b, selections, pf))
  }

  /** `toNumber(cfg.unit_price, 0)` of the first config block, 0 without one. */
  function UnitPrice(blocks: seq<Block>, pf: ParseFloat): real {
    var cfg := Find(blocks, IsConfig);
    if cfg.Some? then ToNumber(cfg.value.unitPrice, 0.0, pf) else 0.0
  }

  /** `(unitPrice + addedSum) * (multiplierValueSum || 1)`. */
  function NewUnitPrice(unitPrice: real, s: Sums): real {
    Times(unitPrice + s.added, if s.multiplier == 0.0 then 1.0 else s.multiplier)
  }

  /** `toNumber(selections?.[areaBlock.id]?.width, 0)`. */
  function AreaWidth(area: Block, selections: Selections, pf: ParseFloat): real {
    ToNumber(Prop(Lookup(selections, area.id), "width"), 0.0, pf)
  }

  /** `computeTotalPrice({ config, selections })`. */
  function TotalPrice(config: ArrayOrNot<Block>, selections: Selections, pf: ParseFloat): real {
    if config.NotArray? then 0.0
    else
      var blocks := config.items;
      var newUnitPrice := NewUnitPrice(UnitPrice(blocks, pf), ConfigSums(blocks, selections, pf));
      var area := Find(blocks, IsEnabledArea);
      if area.None? then newUnitPrice
      else
        var width := AreaWidth(area.value, selections, pf);
        if width <= 0.0 then 0.0 else Times(width, newUnitPrice)
  }

  /** `processPricing` on the two running totals. */
  method ProcessPricing(pricing: Option<Rule>, pf: ParseFloat, added: real, multiplier: real)
    returns (added': real, multiplier': real)
    ensures Sums(added', multiplier') == Plus(Sums(added, multiplier), RuleSums(pricing, pf))
    ensures pricing.None? ==> added' == added && multiplier' == multiplier
  {
    added', multiplier' := added, multiplier;
    if pricing.None? || pricing.value.mode == "none" {
      return;
    }
    var value := ToNumber(pricing.value.value, 0.0, pf);
    if pricing.value.mode == "added" {
      added' := added' + value;
    } else if pricing.value.mode == "multiplier" {
      multiplier' := multiplier' + value;
    }
  }

  /** The selected option of a picker (top-level or nested): its rule, or its legacy amount. */
  method ProcessSelection(options: seq<PickerOption>, sel: JsValue, pf: ParseFloat, added: real, multiplier: real)
    returns (added': real, multiplier': real)
    ensures Sums(added', multiplier') == Plus(Sums(added, multiplier), PickerSums(options, sel, pf))
  {
    added', multiplier' := added, multiplier;
    var selectedItem := FindOption(options, sel);
    if selectedItem.Some? {
      added', multiplier' := ProcessPricing(selectedItem.value.pricing, pf, added', multiplier');
      if selectedItem.value.pricing.None? {
        added' := added' + ToNumber(selectedItem.value.added, 0.0, pf);
      }
    }
  }

  /** The engine as the source runs it: one pass over the blocks, and for a nested picker one
      pass over its groups and the items of each active group. */
  method ComputeTotalPrice(config: ArrayOrNot<Block>, selections: Selections, pf: ParseFloat) returns (price: real)
    ensures price == TotalPrice(config, selections, pf)
  {
    if config.NotArray? {
      return 0.0;
    }
    var blocks := config.items;
    var cfg := Find(blocks, IsConfig);
    var unitPrice := if cfg.Some? then ToNumber(cfg.value.unitPrice, 0.0, pf) else 0.0;
    var addedSum, multiplierValueSum := 0.0, 0.0;
    var i := 0;
    while i < |blocks|
      invariant 0 <= i <= |blocks|
      invariant Sums(addedSum, multiplierValueSum) == ConfigSums(blocks[..i], selections, pf)
    {
      addedSum, multiplierValueSum := ProcessBlock(blocks[i], selections, pf, addedSum, multiplierValueSum);
      SumMapSnoc(blocks, i, b => BlockSums(b, selections, pf));
      i := i + 1;
    }
    assert blocks[..i] == blocks;
    var newUnitPrice := Times(unitPrice + addedSum, if multiplierValueSum == 0.0 then 1.0 else multiplierValueSum);
    assert newUnitPrice == NewUnitPrice(UnitPrice(blocks, pf), ConfigSums(blocks, selections, pf));
    var areaBlock := Find(blocks, IsEnabledArea);
    if areaBlock.None? {
      return newUnitPrice;
    }
    var areaSelection := Lookup(selections, areaBlock.value.id);
    var customerWidth := ToNumber(Prop(areaSelection, "width"), 0.0, pf);
    if customerWidth <= 0.0 {
      return 0.0;
    }
    price := Times(customerWidth, newUnitPrice);
  }

  /** One turn of the block loop: an enabled picker with a truthy selection adds its selected
      option and, when nested, its active groups; every other block adds nothing. */
  method ProcessBlock(block: Block, selections: Selections, pf: ParseFloat, added: real, multiplier: real)
    returns (added': real, multiplier': real)
    ensures Sums(added', multiplier') == Plus(Sums(added, multiplier), BlockSums(block, selections, pf))
  {
    added', multiplier' := added, multiplier;
    var sel := Lookup(selections, block.id);
    if block.enabled && block.kind == "picker" && Truthy(sel) {
      added', multiplier' := ProcessSelection(block.options, sel, pf, added', multiplier');
      if block.isNested && block.nested.Some? {
        added', multiplier' := ProcessNestedGroups(block.nested.value, sel, selections, pf, added', multiplier');
      }
    }
  }

  /** The nested part of a picker's turn: every group whose trigger equals the selection. */
  method ProcessNestedGroups(groups: seq<NestedGroup>, sel: JsValue, selections: Selections, pf: ParseFloat,
                             added: real, multiplier: real)
    returns (added': real, multiplier': real)
    ensures Sums(added', multiplier') == Plus(Sums(added, multiplier), GroupsSums(groups, sel, selections, pf))
  {
    added', multiplier' := added, multiplier;
    var j := 0;
    while j < |groups|
      invariant 0 <= j <= |groups|
      invariant Sums(added', multiplier') == Plus(Sums(added, multiplier), GroupsSums(groups[..j], sel, selections, pf))
    {
      var group := groups[j];
      if GroupActive(group, sel) {
        added', multiplier' := ProcessGroupItems(group.items, selections, pf, added', multiplier');
      }
      SumMapSnoc(groups, j, g => GroupSums(g, sel, selections, pf));
      j := j + 1;
    }
    assert groups[..j] == groups;
  }

  /** The items of an active group: each one with a truthy selection under its own id. */
  method ProcessGroupItems(items: seq<Block>, selections: Selections, pf: ParseFloat, added: real, multiplier: real)
    returns (added': real, multiplier': real)
    ensures Sums(added', multiplier') == Plus(Sums(added, multiplier), ItemsSums(items, selections, pf))
  {
    added', multiplier' := added, multiplier;
    var k := 0;
    while k < |items|
      invariant 0 <= k <= |items|
      invariant Sums(added', multiplier') == Plus(Sums(added, multiplier), ItemsSums(items[..k], selections, pf))
    {
      added', multiplier' := ProcessItem(items[k], selections, pf, added', multiplier');
      SumMapSnoc(items, k, it => ItemSums(it, selections, pf));
      k := k + 1;
    }
    assert items[..k] == items;
  }

  /** One item of an active group: its selected option, when its own selection is truthy. */
  method ProcessItem(item: Block, selections: Selections, pf: ParseFloat, added: real, multiplier: real)
    returns (added': real, multiplier': real)
    ensures Sums(added', multiplier') == Plus(Sums(added, multiplier), ItemSums(item, selections, pf))
  {
    added', multiplier' := added, multiplier;
    var subSel := Lookup(selections, item.id);
    if Truthy(subSel) {
      added', multiplier' := ProcessSelection(item.options, subSel, pf, added', multiplier');
    }
  }

  // ---------------------------------------------------------------------------------------
  // Properties

  /** The totals of a concatenation are the totals of its parts. */
  lemma {:induction false} SumMapAppend<T>(a: seq<T>, c: seq<T>, f: T -> Sums)
    ensures SumMap(a + c, f) == Plus(SumMap(a, f), SumMap(c, f))
  {
    if c == [] {
      assert a + c == a;
    } else {
      var n := |c| - 1;
      assert (a + c)[..|a + c| - 1] == a + c[..n];
      assert (a + c)[|a + c| - 1] == c[n];
      SumMapAppend(a, c[..n], f);
    }
  }

  /** One more element of a prefix adds that element's sums. */
  lemma SumMapSnoc<T>(xs: seq<T>, k: nat, f: T -> Sums)
    requires k < |xs|
    ensures SumMap(xs[..k + 1], f) == Plus(SumMap(xs[..k], f), f(xs[k]))
  {
    assert xs[..k + 1][..k] == xs[..k];
  }

  /** Two element functions that agree on every element give the same totals. */
  lemma {:induction false} SumMapPointwise<T>(xs: seq<T>, f: T -> Sums, g: T -> Sums)
    requires forall i :: 0 <= i < |xs| ==> f(xs[i]) == g(xs[i])
    ensures SumMap(xs, f) == SumMap(xs, g)
  {
    if xs != [] {
      SumMapPointwise(xs[..|xs| - 1], f, g);
    }
  }

  /** Elements that add nothing leave the totals at zero. */
  lemma {:induction false} SumMapNothing<T>(xs: seq<T>, f: T -> Sums)
    requires forall i :: 0 <= i < |xs| ==> f(xs[i]) == NoSums
    ensures SumMap(xs, f) == NoSums
  {
    if xs != [] {
      SumMapNothing(xs[..|xs| - 1], f);
    }
  }

  /** A block that is not a config block, not an enabled area block and not an enabled picker
      can be dropped without changing the price: disabled blocks, and enabled `input` blocks,
      which this engine does not price at all. */
  lemma RemoveInertBlock(blocks: seq<Block>, i: nat, selections: Selections, pf: ParseFloat)
    requires i < |blocks|
    requires !IsConfig(blocks[i]) && !IsEnabledArea(blocks[i])
    requires !blocks[i].enabled || blocks[i].kind != "picker"
    ensures TotalPrice(IsArray(RemoveAt(blocks, i)), selections, pf) == TotalPrice(IsArray(blocks), selections, pf)
  {
    RemoveInertBlockSums(blocks, i, selections, pf);
    FindRemoveRejected(blocks, i, IsConfig);
    FindRemoveRejected(blocks, i, IsEnabledArea);
  }

  lemma RemoveInertBlockSums(blocks: seq<Block>, i: nat, selections: Selections, pf: ParseFloat)
    requires i < |blocks|
    requires !blocks[i].enabled || blocks[i].kind != "picker"
    ensures ConfigSums(RemoveAt(blocks, i), selections, pf) == ConfigSums(blocks, selections, pf)
  {
    var f := b => BlockSums(b, selections, pf);
    var pre, post := blocks[..i], blocks[i + 1..];
    assert RemoveAt(blocks, i) == pre + post;
    assert blocks == (pre + [blocks[i]]) + post;
    SumMapAppend(pre + [blocks[i]], post, f);
    SumMapAppend(pre, [blocks[i]], f);
    assert BlockSums(blocks[i], selections, pf) == NoSums;
    assert f(blocks[i]) == NoSums;
    assert SumMap([blocks[i]], f) == NoSums by {
      assert [blocks[i]][..0] == [];
    }
    SumMapAppend(pre, post, f);
    assert SumMap(RemoveAt(blocks, i), f) == SumMap(blocks, f);
  }

  /** Switching a block off prices like deleting it, for every block but a config block (the
      config block is found whatever its `enabled` key says). */
  lemma DisabledBlockIsRemoved(blocks: seq<Block>, i: nat, selections: Selections, pf: ParseFloat)
    requires i < |blocks| && !IsConfig(blocks[i])
    ensures TotalPrice(IsArray(blocks[i := blocks[i].(enabled := false)]), selections, pf)
         == TotalPrice(IsArray(RemoveAt(blocks, i)), selections, pf)
  {
    var off := blocks[i := blocks[i].(enabled := false)];
    assert RemoveAt(off, i) == RemoveAt(blocks, i);
    RemoveInertBlock(off, i, selections, pf);
  }

  /** The selection keys the engine can read: every block's id and every nested item's id. */
  function ItemKeys(items: seq<Block>): set<string> {
    set item | item in items :: SelectionKey(item.id)
  }

  function GroupKeys(groups: seq<NestedGroup>): set<string> {
    set g, item | g in groups && item in g.items :: SelectionKey(item.id)
  }

  function BlockKeys(b: Block): set<string> {
    {SelectionKey(b.id)} + if b.nested.Some? then GroupKeys(b.nested.value) else {}
  }

  function ConfigKeys(blocks: seq<Block>): set<string> {
    set b, k | b in blocks && k in BlockKeys(b) :: k
  }

  /** Two selection values the engine cannot tell apart: equal, or both falsy (a falsy value is
      never an object, so it also has no `width`). */
  predicate SameReading(u: JsValue, v: JsValue) {
    u == v || (!Truthy(u) && !Truthy(v))
  }

  predicate AgreeOn(keys: set<string>, s1: Selections, s2: Selections) {
    forall k :: k in keys ==> SameReading(Get(s1, k), Get(s2, k))
  }

  lemma ItemsSumsAgree(items: seq<Block>, s1: Selections, s2: Selections, pf: ParseFloat)
    requires AgreeOn(ItemKeys(items), s1, s2)
    ensures ItemsSums(items, s1, pf) == ItemsSums(items, s2, pf)
  {
    forall i | 0 <= i < |items|
      ensures ItemSums(items[i], s1, pf) == ItemSums(items[i], s2, pf)
    {
      assert SelectionKey(items[i].id) in ItemKeys(items);
    }
    SumMapPointwise(items, item => ItemSums(item, s1, pf), item => ItemSums(item, s2, pf));
  }

  lemma GroupsSumsAgree(groups: seq<NestedGroup>, sel: JsValue, s1: Selections, s2: Selections, pf: ParseFloat)
    requires AgreeOn(GroupKeys(groups), s1, s2)
    ensures GroupsSums(groups, sel, s1, pf) == GroupsSums(groups, sel, s2, pf)
  {
    forall i | 0 <= i < |groups|
      ensures GroupSums(groups[i], sel, s1, pf) == GroupSums(groups[i], sel, s2, pf)
    {
      assert ItemKeys(groups[i].items) <= GroupKeys(groups);
      ItemsSumsAgree(groups[i].items, s1, s2, pf);
    }
    SumMapPointwise(groups, g => GroupSums(g, sel, s1, pf), g => GroupSums(g, sel, s2, pf));
  }

  lemma BlockSumsAgree(b: Block, s1: Selections, s2: Selections, pf: ParseFloat)
    requires AgreeOn(BlockKeys(b), s1, s2)
    ensures BlockSums(b, s1, pf) == BlockSums(b, s2, pf)
  {
    assert SelectionKey(b.id) in BlockKeys(b);
    if b.nested.Some? {
      GroupsSumsAgree(b.nested.value, Lookup(s1, b.id), s1, s2, pf);
    }
  }

  /** The price depends only on what the selections hold under the ids the configuration
      uses, and there a falsy value reads like no value. */
  lemma TotalPriceAgree(blocks: seq<Block>, s1: Selections, s2: Selections, pf: ParseFloat)
    requires AgreeOn(ConfigKeys(blocks), s1, s2)
    ensures TotalPrice(IsArray(blocks), s1, pf) == TotalPrice(IsArray(blocks), s2, pf)
  {
    forall i | 0 <= i < |blocks|
      ensures BlockSums(blocks[i], s1, pf) == BlockSums(blocks[i], s2, pf)
    {
      assert BlockKeys(blocks[i]) <= ConfigKeys(blocks);
      BlockSumsAgree(blocks[i], s1, s2, pf);
    }
    SumMapPointwise(blocks, b => BlockSums(b, s1, pf), b => BlockSums(b, s2, pf));
    var area := Find(blocks, IsEnabledArea);
    if area.Some? {
      assert SelectionKey(area.value.id) in BlockKeys(area.value);
      assert SameReading(Lookup(s1, area.value.id), Lookup(s2, area.value.id));
    }
  }

  /** A selection stored under a key that no block or nested item has as its id is ignored. */
  lemma StaleSelectionIgnored(blocks: seq<Block>, selections: Selections, key: string, v: JsValue, pf: ParseFloat)
    requires key !in ConfigKeys(blocks)
    ensures TotalPrice(IsArray(blocks), selections[key := v], pf) == TotalPrice(IsArray(blocks), selections, pf)
  {
    TotalPriceAgree(blocks, selections[key := v], selections, pf);
  }

  /** A missing or falsy entry means "no selection": storing `null`, `false`, `0`, `""` or NaN
      under any key prices exactly like deleting that key. */
  lemma FalsySelectionIsNoSelection(blocks: seq<Block>, selections: Selections, key: string, v: JsValue, pf: ParseFloat)
    requires !Truthy(v)
    ensures TotalPrice(IsArray(blocks), selections[key := v], pf) == TotalPrice(IsArray(blocks), selections - {key}, pf)
  {
    TotalPriceAgree(blocks, selections[key := v], selections - {key}, pf);
  }

  /** Nested gating: groups whose trigger is not the parent's selection add nothing, whatever
      their items' selections hold. */
  lemma InactiveGroupsAddNothing(groups: seq<NestedGroup>, sel: JsValue, selections: Selections, pf: ParseFloat)
    requires forall g :: g in groups ==> !GroupActive(g, sel)
    ensures GroupsSums(groups, sel, selections, pf) == NoSums
  {
    forall i | 0 <= i < |groups|
      ensures GroupSums(groups[i], sel, selections, pf) == NoSums
    {
      assert groups[i] in groups;
    }
    SumMapNothing(groups, g => GroupSums(g, sel, selections, pf));
  }

  /** Every group whose trigger matches is evaluated, not only the first one: when all groups
      match, their items' totals all add up. */
  lemma ActiveGroupsAllCount(groups: seq<NestedGroup>, sel: JsValue, selections: Selections, pf: ParseFloat)
    requires forall g :: g in groups ==> GroupActive(g, sel)
    ensures GroupsSums(groups, sel, selections, pf) == SumMap(groups, (g: NestedGroup) => ItemsSums(g.items, selections, pf))
  {
    forall i | 0 <= i < |groups|
      ensures GroupSums(groups[i], sel, selections, pf) == ItemsSums(groups[i].items, selections, pf)
    {
      assert groups[i] in groups;
    }
    SumMapPointwise(groups, g => GroupSums(g, sel, selections, pf), (g: NestedGroup) => ItemsSums(g.items, selections, pf));
  }

  /** Zero-width policy: when an enabled area block exists and its selection's width is not a
      positive number, the price is 0, whatever the other blocks add. */
  lemma NonPositiveWidthPricesZero(blocks: seq<Block>, selections: Selections, pf: ParseFloat)
    requires Find(blocks, IsEnabledArea).Some?
    requires AreaWidth(Find(blocks, IsEnabledArea).value, selections, pf) <= 0.0
    ensures TotalPrice(IsArray(blocks), selections, pf) == 0.0
  {
  }

  /** Writing `{ width: 0 }` under the area block's id prices the configuration at 0. */
  lemma ZeroWidthPricesZero(blocks: seq<Block>, selections: Selections, pf: ParseFloat)
    requires Find(blocks, IsEnabledArea).Some?
    ensures var key := SelectionKey(Find(blocks, IsEnabledArea).value.id);
            TotalPrice(IsArray(blocks), selections[key := Obj(map["width" := Num(0.0)])], pf) == 0.0
  {
  }

  /** With an enabled area block and a positive width, the price is width times the new unit
      price; without one, it is the new unit price itself. */
  lemma PriceIsWidthTimesUnitPrice(blocks: seq<Block>, selections: Selections, pf: ParseFloat)
    ensures var p := TotalPrice(IsArray(blocks), selections, pf);
            var u := NewUnitPrice(UnitPrice(blocks, pf), ConfigSums(blocks, selections, pf));
            var area := Find(blocks, IsEnabledArea);
            && (area.None? ==> p == u)
            && (area.Some? && AreaWidth(area.value, selections, pf) > 0.0 ==> p == Times(AreaWidth(area.value, selections, pf), u))
  {
  }

  // ---------------------------------------------------------------------------------------
  // Worked configurations

  function ConfigBlock(unitPrice: real): Block {
    Bare("config").(unitPrice := Num(unitPrice))
  }

  function AreaBlock(id: string): Block {
    Bare("area").(id := Some(id), enabled := true)
  }

  function PickerBlock(id: string, options: seq<PickerOption>): Block {
    Bare("picker").(id := Some(id), enabled := true, options := options)
  }

  function RuleOption(value: string, mode: string, amount: real): PickerOption {
    PickerOption(value, value, Some(Rule(mode, Num(amount), "", "")), Undefined, map[])
  }

  function Width(w: JsValue): JsValue {
    Obj(map["width" := w])
  }

  lemma SumMapTwo<T>(x: T, y: T, f: T -> Sums)
    ensures SumMap([x, y], f) == Plus(Plus(NoSums, f(x)), f(y))
  {
    assert [x, y][..1] == [x];
    SumMapOne(x, f);
  }

  lemma ConfigSumsTwo(x: Block, y: Block, selections: Selections, pf: ParseFloat)
    ensures ConfigSums([x, y], selections, pf) == Plus(Plus(NoSums, BlockSums(x, selections, pf)), BlockSums(y, selections, pf))
  {
    SumMapTwo(x, y, b => BlockSums(b, selections, pf));
  }

  lemma ConfigSumsThree(x: Block, y: Block, z: Block, selections: Selections, pf: ParseFloat)
    ensures ConfigSums([x, y, z], selections, pf)
         == Plus(Plus(Plus(NoSums, BlockSums(x, selections, pf)), BlockSums(y, selections, pf)), BlockSums(z, selections, pf))
  {
    SumMapThree(x, y, z, b => BlockSums(b, selections, pf));
  }

  lemma SumMapThree<T>(x: T, y: T, z: T, f: T -> Sums)
    ensures SumMap([x, y, z], f) == Plus(Plus(Plus(NoSums, f(x)), f(y)), f(z))
  {
    assert [x, y, z][..2] == [x, y];
    SumMapTwo(x, y, f);
  }

  /** With no option selected, the price is the unit price times the width: unit price 10
      and width 5 give 50. */
  lemma WorkedUnitPriceTimesWidth(unitPrice: real, width: real, pf: ParseFloat)
    requires width > 0.0
    ensures TotalPrice(IsArray([ConfigBlock(unitPrice), AreaBlock("a")]), map["a" := Width(Num(width))], pf)
            == width * unitPrice
  {
    var bs := [ConfigBlock(unitPrice), AreaBlock("a")];
    var sels := map["a" := Width(Num(width))];
    assert BlockSums(ConfigBlock(unitPrice), sels, pf) == NoSums;
    assert BlockSums(AreaBlock("a"), sels, pf) == NoSums;
    assert Find(bs, IsEnabledArea) == Some(AreaBlock("a")) by {
      assert !IsEnabledArea(bs[0]) && bs[1..] == [AreaBlock("a")];
    }
    assert AreaWidth(AreaBlock("a"), sels, pf) == width;
    assert ConfigSums(bs, sels, pf) == NoSums by {
      ConfigSumsTwo(ConfigBlock(unitPrice), AreaBlock("a"), sels, pf);
    }
    assert UnitPrice(bs, pf) == unitPrice;
    assert NewUnitPrice(unitPrice, NoSums) == unitPrice;
    assert TotalPrice(IsArray(bs), sels, pf) == Times(width, unitPrice);
  }

  /** One selected option priced `added` a, with an area block: width * (unit + a). Unit price
      10, width 5 and a = 2 give 60. */
  lemma WorkedAddedOption(unitPrice: real, width: real, amount: real, pf: ParseFloat)
    requires width > 0.0
    ensures TotalPrice(IsArray([ConfigBlock(unitPrice), PickerBlock("p", [RuleOption("x", "added", amount)]), AreaBlock("a")]),
                       map["a" := Width(Num(width)), "p" := Str("x")], pf)
            == width * (unitPrice + amount)
  {
    var picker := PickerBlock("p", [RuleOption("x", "added", amount)]);
    var bs := [ConfigBlock(unitPrice), picker, AreaBlock("a")];
    var sels := map["a" := Width(Num(width)), "p" := Str("x")];
    OneOptionWithArea(unitPrice, width, picker, sels, Sums(amount, 0.0), pf);
    assert NewUnitPrice(unitPrice, Sums(amount, 0.0)) == unitPrice + amount;
  }

  /** One selected option priced `multiplier` m (m not 0), with an area block: width * unit * m.
      Unit price 10, width 5 and m = 3 give 150. */
  lemma WorkedMultiplierOption(unitPrice: real, width: real, amount: real, pf: ParseFloat)
    requires width > 0.0 && amount != 0.0
    ensures TotalPrice(IsArray([ConfigBlock(unitPrice), PickerBlock("p", [RuleOption("x", "multiplier", amount)]), AreaBlock("a")]),
                       map["a" := Width(Num(width)), "p" := Str("x")], pf)
            == width * (unitPrice * amount)
  {
    var picker := PickerBlock("p", [RuleOption("x", "multiplier", amount)]);
    var bs := [ConfigBlock(unitPrice), picker, AreaBlock("a")];
    var sels := map["a" := Width(Num(width)), "p" := Str("x")];
    OneOptionWithArea(unitPrice, width, picker, sels, Sums(0.0, amount), pf);
    assert NewUnitPrice(unitPrice, Sums(0.0, amount)) == unitPrice * amount;
  }

  lemma OneOptionWithArea(unitPrice: real, width: real, picker: Block, sels: Selections, sums: Sums, pf: ParseFloat)
    requires width > 0.0 && !IsEnabledArea(picker) && !IsConfig(picker)
    requires "a" in sels && sels["a"] == Width(Num(width))
    requires BlockSums(picker, sels, pf) == sums
    ensures TotalPrice(IsArray([ConfigBlock(unitPrice), picker, AreaBlock("a")]), sels, pf)
            == Times(width, NewUnitPrice(unitPrice, sums))
  {
    var bs := [ConfigBlock(unitPrice), picker, AreaBlock("a")];
    assert Find(bs, IsEnabledArea) == Some(AreaBlock("a")) by {
      assert Find([AreaBlock("a")], IsEnabledArea) == Some(AreaBlock("a"));
      assert bs[1..][1..] == [AreaBlock("a")];
      assert Find(bs[1..], IsEnabledArea) == Find(bs[1..][1..], IsEnabledArea);
    }
    assert AreaWidth(AreaBlock("a"), sels, pf) == width;
    assert ConfigSums(bs, sels, pf) == sums by {
      assert BlockSums(ConfigBlock(unitPrice), sels, pf) == NoSums;
      assert BlockSums(AreaBlock("a"), sels, pf) == NoSums;
      ConfigSumsThree(ConfigBlock(unitPrice), picker, AreaBlock("a"), sels, pf);
    }
    assert UnitPrice(bs, pf) == unitPrice;
    PriceIsWidthTimesUnitPrice(bs, sels, pf);
  }

  /** Two selected multipliers m1 and m2 scale the unit price by m1 + m2, not by m1 * m2:
      2 and 3 turn unit price 10 into 50, not 60. */
  lemma WorkedSummedMultipliers(unitPrice: real, m1: real, m2: real, pf: ParseFloat)
    requires m1 + m2 != 0.0
    ensures TotalPrice(IsArray([ConfigBlock(unitPrice), PickerBlock("p", [RuleOption("x", "multiplier", m1)]),
                                PickerBlock("q", [RuleOption("y", "multiplier", m2)])]),
                       map["p" := Str("x"), "q" := Str("y")], pf) == unitPrice * (m1 + m2)
  {
    var p := PickerBlock("p", [RuleOption("x", "multiplier", m1)]);
    var q := PickerBlock("q", [RuleOption("y", "multiplier", m2)]);
    var bs := [ConfigBlock(unitPrice), p, q];
    var sels := map["p" := Str("x"), "q" := Str("y")];
    assert BlockSums(ConfigBlock(unitPrice), sels, pf) == NoSums;
    assert BlockSums(p, sels, pf) == Sums(0.0, m1);
    assert BlockSums(q, sels, pf) == Sums(0.0, m2);
    assert Find(bs, IsEnabledArea) == None by {
      assert !IsEnabledArea(bs[0]) && !IsEnabledArea(bs[1]) && !IsEnabledArea(bs[2]);
    }
    assert ConfigSums(bs, sels, pf) == Sums(0.0, m1 + m2) by {
      ConfigSumsThree(ConfigBlock(unitPrice), p, q, sels, pf);
    }
  }

  /** Without an area block there is no width scaling: unit price 10 plus `added` 5 is 15. */
  lemma WorkedNoAreaBlock(unitPrice: real, amount: real, pf: ParseFloat)
    ensures TotalPrice(IsArray([ConfigBlock(unitPrice), PickerBlock("p", [RuleOption("x", "added", amount)])]),
                       map["p" := Str("x")], pf) == unitPrice + amount
  {
    var p := PickerBlock("p", [RuleOption("x", "added", amount)]);
    var bs := [ConfigBlock(unitPrice), p];
    var sels := map["p" := Str("x")];
    assert BlockSums(ConfigBlock(unitPrice), sels, pf) == NoSums;
    assert BlockSums(p, sels, pf) == Sums(amount, 0.0);
    assert Find(bs, IsEnabledArea) == None by {
      assert !IsEnabledArea(bs[0]) && !IsEnabledArea(bs[1]);
    }
    assert ConfigSums(bs, sels, pf) == Sums(amount, 0.0) by {
      ConfigSumsTwo(ConfigBlock(unitPrice), p, sels, pf);
    }
  }

  /** A nested item's legacy `added` amount (8 in the example "grommet" configuration) counts
      when the parent's selection opens its group. */
  lemma WorkedNestedLegacyAdded(unitPrice: real, amount: real, pf: ParseFloat)
    ensures var item := PickerBlock("s", [PickerOption("big", "big", None, Num(amount), map[])]);
            var parent := PickerBlock("p", [PickerOption("grommet", "grommet", None, Undefined, map[])])
                            .(isNested := true, nested := Some([NestedGroup(When(Some("p"), "grommet"), [item])]));
            TotalPrice(IsArray([ConfigBlock(unitPrice), parent]), map["p" := Str("grommet"), "s" := Str("big")], pf)
            == unitPrice + amount
  {
    var item := PickerBlock("s", [PickerOption("big", "big", None, Num(amount), map[])]);
    var sels := map["p" := Str("grommet"), "s" := Str("big")];
    var group := NestedGroup(When(Some("p"), "grommet"), [item]);
    var parent := PickerBlock("p", [PickerOption("grommet", "grommet", None, Undefined, map[])])
                    .(isNested := true, nested := Some([group]));
    var bs := [ConfigBlock(unitPrice), parent];
    assert ItemSums(item, sels, pf) == Sums(amount, 0.0);
    assert ItemsSums([item], sels, pf) == Sums(amount, 0.0) by {
      SumMapOne(item, it => ItemSums(it, sels, pf));
    }
    assert GroupSums(group, Str("grommet"), sels, pf) == Sums(amount, 0.0);
    assert GroupsSums([group], Str("grommet"), sels, pf) == Sums(amount, 0.0) by {
      SumMapOne(group, g => GroupSums(g, Str("grommet"), sels, pf));
    }
    assert PickerSums(parent.options, Str("grommet"), pf) == Sums(0.0, 0.0);
    assert BlockSums(parent, sels, pf) == Sums(amount, 0.0);
    assert BlockSums(ConfigBlock(unitPrice), sels, pf) == NoSums;
    assert Find(bs, IsEnabledArea) == None by {
      assert !IsEnabledArea(bs[0]) && !IsEnabledArea(bs[1]);
    }
    assert ConfigSums(bs, sels, pf) == Sums(amount, 0.0) by {
      ConfigSumsTwo(ConfigBlock(unitPrice), parent, sels, pf);
    }
  }

  lemma SumMapOne<T>(x: T, f: T -> Sums)
    ensures SumMap([x], f) == Plus(NoSums, f(x))
  {
    assert [x][..0] == [];
  }

  /** A non-numeric width falls back to 0, so the configuration prices at 0 without failing. */
  lemma WorkedGarbageWidth(pf: ParseFloat)
    requires !pf("not-a-number").Num?
    ensures TotalPrice(IsArray([Bare("config"), AreaBlock("a")]), map["a" := Width(Str("not-a-number"))], pf) == 0.0
  {
    var bs := [Bare("config"), AreaBlock("a")];
    assert Find(bs, IsEnabledArea) == Some(AreaBlock("a")) by {
      assert !IsEnabledArea(bs[0]) && bs[1..] == [AreaBlock("a")];
    }
  }
}
