/** The editor's price preview, `computeTotalPrice` of app/utils/pricing.js. Unlike the checkout
    engine it starts from a base P0 (the configured base price, or the area block's price per
    square metre), keeps four accumulators (a linear multiplier sum, a compound multiplier
    product, per-unit additions and per-order additions), scales the unit price by the area
    in square metres and adds the per-order part last. A truthy picker selection that matches
    no option makes the source read `.added` of undefined and throw; that is modelled as an
    outcome of its own. */
module PreviewPricing {
  import opened Js
  import opened Blocks

  /** `mLinearSum`, `mCompoundFactor`, `aUnit`, `aOrder`. */
  datatype Acc = Acc(mLinearSum: real, mCompoundFactor: real, aUnit: real, aOrder: real)

  const Start := Acc(0.0, 1.0, 0.0, 0.0)

  /** The accumulators after some steps, or the TypeError that aborted them. */
  datatype Outcome = Ok(acc: Acc) | Threw

  /** What `computeTotalPrice` does: return a number or throw. */
  datatype Evaluation = Total(value: real) | Thrown

  /** `applyPricing(pricing)` with P0 fixed. A scope other than "order" (absent included) is the
      unit scope and a combine other than "compound" is `linear_base`, so only those two words
      are compared; a mode other than "multiplier" and "added" ("none" included) does nothing. */
  function ApplyPricing(acc: Acc, r: Rule, p0: real, pf: ParseFloat): (a: Acc)
    ensures r.mode != "multiplier" && r.mode != "added" ==> a == acc
    ensures r.mode == "added" && r.scope == "order" ==> a == acc.(aOrder := acc.aOrder + ToNumber(r.value, 0.0, pf))
    ensures r.mode == "added" && r.scope != "order" ==> a == acc.(aUnit := acc.aUnit + ToNumber(r.value, 0.0, pf))
    ensures r.mode == "multiplier" ==> a.aUnit == acc.aUnit
    ensures r.mode == "multiplier" && r.scope == "order"
            ==> a == acc.(aOrder := acc.aOrder + Times(p0, ToNumber(r.value, 0.0, pf)))
    ensures r.mode == "multiplier" && r.scope != "order" && r.combine == "compound"
            ==> a == acc.(mCompoundFactor := Times(acc.mCompoundFactor, 1.0 + ToNumber(r.value, 0.0, pf)))
    ensures r.mode == "multiplier" && r.scope != "order" && r.combine != "compound"
            ==> a == acc.(mLinearSum := acc.mLinearSum + ToNumber(r.value, 0.0, pf))
  {
    var v := ToNumber(r.value, 0.0, pf);
    if r.mode == "multiplier" then
      if r.scope == "order" then acc.(aOrder := acc.aOrder + Times(p0, v))
      else if r.combine == "compound" then acc.(mCompoundFactor := Times(acc.mCompoundFactor, 1.0 + v))
      else acc.(mLinearSum := acc.mLinearSum + v)
    else if r.mode == "added" then
      if r.scope == "order" then acc.(aOrder := acc.aOrder + v) else acc.(aUnit := acc.aUnit + v)
    else acc
  }

  /** Applying two rules in either order gives the same accumulators, so the order of the
      blocks never changes a price the preview returns. */
  lemma ApplyPricingCommutes(acc: Acc, r1: Rule, r2: Rule, p0: real, pf: ParseFloat)
    ensures ApplyPricing(ApplyPricing(acc, r1, p0, pf), r2, p0, pf)
         == ApplyPricing(ApplyPricing(acc, r2, p0, pf), r1, p0, pf)
  {
    var v1, v2 := ToNumber(r1.value, 0.0, pf), ToNumber(r2.value, 0.0, pf);
    var c := acc.mCompoundFactor;
    assert Times(Times(c, 1.0 + v1), 1.0 + v2) == Times(Times(c, 1.0 + v2), 1.0 + v1);
  }

  /** The option a truthy selection picked: its rule, else its legacy `added` as a unit addition.
      No matching option means `selectedItem.added` is read off undefined: a throw. */
  function SelectedEffect(acc: Acc, options: seq<PickerOption>, sel: JsValue, p0: real, pf: ParseFloat): (o: Outcome)
    ensures o.Threw? <==> FindOption(options, sel).None?
  {
    var item := FindOption(options, sel);
    if item.None? then Threw
    else if item.value.pricing.Some? then Ok(ApplyPricing(acc, item.value.pricing.value, p0, pf))
    else Ok(acc.(aUnit := acc.aUnit + ToNumber(item.value.added, 0.0, pf)))
  }

  /** A loop over a list that threads the accumulators and stops at the first throw. */
  function Thread<T>(start: Outcome, xs: seq<T>, step: (Acc, T) -> Outcome): Outcome
    decreases |xs|
  {
    if xs == [] then start
    else
      var prev := Thread(start, xs[..|xs| - 1], step);
      if prev.Threw? then Threw else step(prev.acc, xs[|xs| - 1])
  }

  lemma ThreadSnoc<T>(start: Outcome, xs: seq<T>, k: nat, step: (Acc, T) -> Outcome)
    requires k < |xs|
    ensures Thread(start, xs[..k + 1], step)
         == (var prev := Thread(start, xs[..k], step); if prev.Threw? then Threw else step(prev.acc, xs[k]))
  {
    assert xs[..k + 1][..k] == xs[..k];
  }

  /** Once a step throws, the loop has thrown. */
  lemma {:induction false} ThreadStaysThrown<T>(start: Outcome, xs: seq<T>, k: nat, step: (Acc, T) -> Outcome)
    requires k <= |xs| && Thread(start, xs[..k], step).Threw?
    ensures Thread(start, xs, step).Threw?
    decreases |xs| - k
  {
    if k == |xs| {
      assert xs[..k] == xs;
    } else {
      ThreadSnoc(start, xs, k, step);
      ThreadStaysThrown(start, xs, k + 1, step);
    }
  }

  lemma {:induction false} ThreadFromThrown<T>(xs: seq<T>, step: (Acc, T) -> Outcome)
    ensures Thread(Threw, xs, step) == Threw
    decreases |xs|
  {
    if xs != [] {
      ThreadFromThrown(xs[..|xs| - 1], step);
    }
  }

  /** Running over `a + c` is running over `a`, then over `c` from where `a` stopped. */
  lemma {:induction false} ThreadAppend<T>(start: Outcome, a: seq<T>, c: seq<T>, step: (Acc, T) -> Outcome)
    ensures Thread(start, a + c, step) == Thread(Thread(start, a, step), c, step)
    decreases |c|
  {
    if c == [] {
      assert a + c == a;
    } else {
      assert (a + c)[..|a + c| - 1] == a + c[..|c| - 1];
      assert (a + c)[|a + c| - 1] == c[|c| - 1];
      ThreadAppend(start, a, c[..|c| - 1], step);
    }
  }

  /** When whether a step throws depends only on the element, the loop throws exactly when some
      element throws. */
  lemma {:induction false} ThreadThrows<T>(a: Acc, xs: seq<T>, step: (Acc, T) -> Outcome, throws: T -> bool)
    requires forall b, x :: step(b, x).Threw? <==> throws(x)
    ensures Thread(Ok(a), xs, step).Threw? <==> exists i :: 0 <= i < |xs| && throws(xs[i])
    decreases |xs|
  {
    if xs != [] {
      var n := |xs| - 1;
      var init := xs[..n];
      ThreadThrows(a, init, step, throws);
      if exists i :: 0 <= i < |init| && throws(init[i]) {
        var i :| 0 <= i < |init| && throws(init[i]);
        assert throws(xs[i]);
      } else {
        forall i | 0 <= i < n
          ensures !throws(xs[i])
        {
          assert xs[i] == init[i];
        }
      }
    }
  }

  /** One item of an active nested group: read with its own id and skipped when falsy. */
  function ItemEffect(acc: Acc, item: Block, selections: Selections, p0: real, pf: ParseFloat): Outcome {
    var subSel := Lookup(selections, item.id);
    if !Truthy(subSel) then Ok(acc) else SelectedEffect(acc, item.options, subSel, p0, pf)
  }

  function GroupEffect(acc: Acc, g: NestedGroup, sel: JsValue, selections: Selections, p0: real, pf: ParseFloat): Outcome {
    if GroupActive(g, sel) then Thread(Ok(acc), g.items, (a, item) => ItemEffect(a, item, selections, p0, pf))
    else Ok(acc)
  }

  /** An enabled picker: nothing for a falsy selection; otherwise the chosen option, then every
      nested group whose trigger equals the selection. */
  function PickerEffect(acc: Acc, b: Block, sel: JsValue, selections: Selections, p0: real, pf: ParseFloat): Outcome {
    if !Truthy(sel) then Ok(acc)
    else
      var chosen := SelectedEffect(acc, b.options, sel, p0, pf);
      if chosen.Threw? || !b.isNested || b.nested.None? then chosen
      else Thread(chosen, b.nested.value, (a, g) => GroupEffect(a, g, sel, selections, p0, pf))
  }

  /** An enabled input with a selection that is truthy or the number 0. Number inputs scale
      their rule's value by the entered quantity; text inputs apply their rule as it is. */
  function InputEffect(acc: Acc, b: Block, sel: JsValue, p0: real, pf: ParseFloat): Acc {
    if b.subtype == "number" || b.subtype == "float" then
      if b.pricing.Some? && b.pricing.value.mode == "multiplier" then
        var qty := ToNumber(sel, 0.0, pf);
        var k := ToNumber(b.pricing.value.value, 0.0, pf);
        ApplyPricing(acc, Rule("multiplier", Num(Times(k, qty)), b.pricing.value.scope, b.pricing.value.combine), p0, pf)
      else if b.pricing.Some? && b.pricing.value.mode == "added" then
        var qty := ToNumber(sel, 0.0, pf);
        var perUnit := ToNumber(b.pricing.value.value, 0.0, pf);
        ApplyPricing(acc, Rule("added", Num(Times(perUnit, qty)), b.pricing.value.scope, ""), p0, pf)
      else acc
    else if b.subtype == "text" && b.pricing.Some? then ApplyPricing(acc, b.pricing.value, p0, pf)
    else acc
  }

  /** One pass of the block loop. Disabled blocks and area blocks change nothing; a block of any
      type other than picker, input and area (the config block included) applies its own rule. */
  function BlockEffect(acc: Acc, b: Block, selections: Selections, p0: real, pf: ParseFloat): Outcome {
    if !b.enabled then Ok(acc)
    else
      var sel := Lookup(selections, b.id);
      if b.kind == "picker" then PickerEffect(acc, b, sel, selections, p0, pf)
      else if b.kind == "input" then
        if !Truthy(sel) && sel != Num(0.0) then Ok(acc) else Ok(InputEffect(acc, b, sel, p0, pf))
      else if b.kind == "area" then Ok(acc)
      else if b.pricing.Some? then Ok(ApplyPricing(acc, b.pricing.value, p0, pf))
      else Ok(acc)
  }

  function Effects(blocks: seq<Block>, selections: Selections, p0: real, pf: ParseFloat): Outcome {
    Thread(Ok(Start), blocks, (a, b) => BlockEffect(a, b, selections, p0, pf))
  }

  /** `toNumber(selection?.[key], 0)`. */
  function Dimension(selection: JsValue, key: string, pf: ParseFloat): real {
    ToNumber(Prop(selection, key), 0.0, pf)
  }

  predicate HasDims(selection: JsValue, pf: ParseFloat) {
    Dimension(selection, "width", pf) > 0.0 && Dimension(selection, "height", pf) > 0.0
  }

  /** `toNumber(areaBlock?.pricing?.value, 0)`. */
  function PricePerSqm(area: Option<Block>, pf: ParseFloat): real {
    if area.Some? && area.value.pricing.Some? then ToNumber(area.value.pricing.value.value, 0.0, pf) else 0.0
  }

  /** P0: the configured `base_price`, replaced by the area's price per square metre when
      `base_source` is "area", an enabled area block exists and both its dimensions are positive. */
  function BasePrice(cfg: Option<Block>, area: Option<Block>, selections: Selections, pf: ParseFloat): (p0: real)
    ensures cfg.None? && area.None? ==> p0 == 0.0
  {
    var base := if cfg.Some? then ToNumber(cfg.value.basePrice, 0.0, pf) else 0.0;
    var baseSource := if cfg.Some? && cfg.value.baseSource != "" then cfg.value.baseSource else "base";
    if baseSource == "area" && area.Some? then
      if HasDims(Lookup(selections, area.value.id), pf) then PricePerSqm(area, pf) else base
    else base
  }

  /** `area_m2`: width times height over 10000 (centimetres to square metres) when both are
      positive, otherwise 1; also 1 without an enabled area block. */
  function AreaFactor(area: Option<Block>, selections: Selections, pf: ParseFloat): (f: real)
    ensures area.None? ==> f == 1.0
    ensures area.Some? && !HasDims(Lookup(selections, area.value.id), pf) ==> f == 1.0
    ensures f > 0.0
  {
    if area.None? then 1.0
    else
      var sel := Lookup(selections, area.value.id);
      var w, h := Dimension(sel, "width", pf), Dimension(sel, "height", pf);
      if w > 0.0 && h > 0.0 then Times(w, h) / 10000.0 else 1.0
  }

  /** `P_unit * area_m2 + aOrder` with `P_unit = P0 * (1 + mLinearSum) * mCompoundFactor + aUnit`. */
  function Finish(p0: real, acc: Acc, factor: real): real {
    Times(Times(Times(p0, 1.0 + acc.mLinearSum), acc.mCompoundFactor) + acc.aUnit, factor) + acc.aOrder
  }

  function PreviewTotal(config: ArrayOrNot<Block>, selections: Selections, pf: ParseFloat): Evaluation {
    if config.NotArray? then Total(0.0)
    else
      var blocks := config.items;
      var area := Find(blocks, IsEnabledArea);
      var p0 := BasePrice(Find(blocks, IsConfig), area, selections, pf);
      Conclude(p0, Effects(blocks, selections, p0, pf), AreaFactor(area, selections, pf))
  }

  /** The value returned after the block loop, or the throw that ended it. */
  function Conclude(p0: real, effects: Outcome, factor: real): Evaluation {
    if effects.Threw? then Thrown else Total(Finish(p0, effects.acc, factor))
  }

  /** `computeAreaBase(block, selection)`: the area in square metres times the block's price
      per square metre, for an enabled area block; 0 otherwise. Dimensions are not checked for
      sign here. */
  function ComputeAreaBase(block: Option<Block>, selection: JsValue, pf: ParseFloat): (r: real)
    ensures block.None? || !IsEnabledArea(block.value) ==> r == 0.0
    ensures block.Some? && IsEnabledArea(block.value) && block.value.pricing.None? ==> r == 0.0
    ensures block.Some? && IsEnabledArea(block.value) && Dimension(selection, "width", pf) == 0.0 ==> r == 0.0
  {
    if block.None? || block.value.kind != "area" || !block.value.enabled then 0.0
    else
      var sqm := Times(Dimension(selection, "width", pf), Dimension(selection, "height", pf)) / 10000.0;
      Times(sqm, PricePerSqm(block, pf))
  }

  /** The total the editor shows: a thrown error is caught and shown as 0. */
  function DisplayedTotal(config: ArrayOrNot<Block>, selections: Selections, pf: ParseFloat): real {
    var e := PreviewTotal(config, selections, pf);
    if e.Thrown? then 0.0 else e.value
  }

  // ---------------------------------------------------------------------------------------
  // When the preview throws

  /** A truthy selection that matches none of the options. */
  predicate Unmatched(options: seq<PickerOption>, sel: JsValue) {
    Truthy(sel) && FindOption(options, sel).None?
  }

  predicate ItemThrows(item: Block, selections: Selections) {
    Unmatched(item.options, Lookup(selections, item.id))
  }

  predicate GroupThrows(g: NestedGroup, sel: JsValue, selections: Selections) {
    GroupActive(g, sel) && exists k :: 0 <= k < |g.items| && ItemThrows(g.items[k], selections)
  }

  /** An enabled picker whose own selection matches nothing, or one of whose active nested
      groups holds an item whose selection matches nothing. */
  predicate BlockThrows(b: Block, selections: Selections) {
    var sel := Lookup(selections, b.id);
    b.enabled && b.kind == "picker" && Truthy(sel)
    && (FindOption(b.options, sel).None?
        || (b.isNested && b.nested.Some?
            && exists j :: 0 <= j < |b.nested.value| && GroupThrows(b.nested.value[j], sel, selections)))
  }

  lemma GroupEffectThrows(acc: Acc, g: NestedGroup, sel: JsValue, selections: Selections, p0: real, pf: ParseFloat)
    ensures GroupEffect(acc, g, sel, selections, p0, pf).Threw? <==> GroupThrows(g, sel, selections)
  {
    if GroupActive(g, sel) {
      ThreadThrows(acc, g.items, (a, item) => ItemEffect(a, item, selections, p0, pf), item => ItemThrows(item, selections));
    }
  }

  lemma BlockEffectThrows(acc: Acc, b: Block, selections: Selections, p0: real, pf: ParseFloat)
    ensures BlockEffect(acc, b, selections, p0, pf).Threw? <==> BlockThrows(b, selections)
  {
    var sel := Lookup(selections, b.id);
    if b.enabled && b.kind == "picker" && Truthy(sel) {
      var chosen := SelectedEffect(acc, b.options, sel, p0, pf);
      if chosen.Ok? && b.isNested && b.nested.Some? {
        var step := (a, g) => GroupEffect(a, g, sel, selections, p0, pf);
        forall a, g
          ensures step(a, g).Threw? <==> GroupThrows(g, sel, selections)
        {
          GroupEffectThrows(a, g, sel, selections, p0, pf);
        }
        ThreadThrows(chosen.acc, b.nested.value, step, g => GroupThrows(g, sel, selections));
      }
    }
  }

  /** The preview throws exactly when some enabled picker, or an item of one of its active
      nested groups, holds a truthy selection that matches none of its options. */
  lemma ThrowsIffUnmatchedSelection(config: ArrayOrNot<Block>, selections: Selections, pf: ParseFloat)
    ensures PreviewTotal(config, selections, pf).Thrown?
        <==> config.IsArray? && exists i :: 0 <= i < |config.items| && BlockThrows(config.items[i], selections)
  {
    if config.IsArray? {
      var blocks := config.items;
      var p0 := BasePrice(Find(blocks, IsConfig), Find(blocks, IsEnabledArea), selections, pf);
      var step := (a, b) => BlockEffect(a, b, selections, p0, pf);
      forall a, b
        ensures step(a, b).Threw? <==> BlockThrows(b, selections)
      {
        BlockEffectThrows(a, b, selections, p0, pf);
      }
      ThreadThrows(Start, blocks, step, b => BlockThrows(b, selections));
    }
  }

  /** So the editor shows 0 whenever such a selection is present. */
  lemma UnmatchedSelectionShowsZero(blocks: seq<Block>, selections: Selections, pf: ParseFloat, i: nat)
    requires i < |blocks| && BlockThrows(blocks[i], selections)
    ensures DisplayedTotal(IsArray(blocks), selections, pf) == 0.0
  {
    ThrowsIffUnmatchedSelection(IsArray(blocks), selections, pf);
  }

  // ---------------------------------------------------------------------------------------
  // How the parts of the price combine

  /** With no option contributing anything, the preview is P0 times the area factor: the base
      price when there is no area block or no dimensions, the base price per square metre of
      area with `base_source` "base", and exactly `computeAreaBase` with `base_source` "area". */
  lemma BaseOnlyPrice(blocks: seq<Block>, selections: Selections, pf: ParseFloat)
    requires Effects(blocks, selections,
                     BasePrice(Find(blocks, IsConfig), Find(blocks, IsEnabledArea), selections, pf), pf) == Ok(Start)
    ensures var cfg, area := Find(blocks, IsConfig), Find(blocks, IsEnabledArea);
            var base := if cfg.Some? then ToNumber(cfg.value.basePrice, 0.0, pf) else 0.0;
            var t := PreviewTotal(IsArray(blocks), selections, pf);
            && (area.None? ==> t == Total(base))
            && (area.Some? && !HasDims(Lookup(selections, area.value.id), pf) ==> t == Total(base))
            && (area.Some? && HasDims(Lookup(selections, area.value.id), pf)
                && (cfg.None? || cfg.value.baseSource != "area")
                ==> t == Total(Times(base, AreaFactor(area, selections, pf))))
            && (area.Some? && HasDims(Lookup(selections, area.value.id), pf)
                && cfg.Some? && cfg.value.baseSource == "area"
                ==> t == Total(ComputeAreaBase(area, Lookup(selections, area.value.id), pf)))
  {
    var cfg, area := Find(blocks, IsConfig), Find(blocks, IsEnabledArea);
    var p0 := BasePrice(cfg, area, selections, pf);
    var factor := AreaFactor(area, selections, pf);
    assert PreviewTotal(IsArray(blocks), selections, pf) == Total(Finish(p0, Start, factor));
    FinishStart(p0, factor);
    if area.Some? {
      var sel := Lookup(selections, area.value.id);
      var w, h := Dimension(sel, "width", pf), Dimension(sel, "height", pf);
      var p := PricePerSqm(area, pf);
      assert Times(p, Times(w, h) / 10000.0) == Times(Times(w, h) / 10000.0, p);
    }
  }

  /** With nothing selected the accumulators leave P0 alone: the total is P0 times the factor. */
  lemma FinishStart(p0: real, factor: real)
    ensures Finish(p0, Start, factor) == Times(p0, factor)
  {
    assert Times(p0, 1.0 + 0.0) == p0;
    assert Times(p0, 1.0) == p0;
  }

  /** A block appended after the others (neither config nor area) changes neither P0 nor the area factor. */
  lemma AppendKeepsBase(blocks: seq<Block>, b: Block)
    requires !IsConfig(b) && b.kind != "area"
    ensures Find(blocks + [b], IsConfig) == Find(blocks, IsConfig)
    ensures Find(blocks + [b], IsEnabledArea) == Find(blocks, IsEnabledArea)
  {
    FindAppend(blocks, [b], IsConfig);
    FindAppend(blocks, [b], IsEnabledArea);
    assert [b][1..] == [];
  }

  /** A total raised by `d`; a throw stays a throw. */
  function Raise(e: Evaluation, d: real): (r: Evaluation)
    ensures r.Thrown? <==> e.Thrown?
  {
    if e.Thrown? then Thrown else Total(e.value + d)
  }

  lemma ThreadOne<T>(start: Outcome, x: T, step: (Acc, T) -> Outcome)
    ensures Thread(start, [x], step) == if start.Threw? then Threw else step(start.acc, x)
  {
    assert [x][..0] == [];
  }

  /** The preview of `blocks + [b]` is the preview of `blocks` followed by one more step. */
  lemma AppendedBlock(blocks: seq<Block>, b: Block, selections: Selections, pf: ParseFloat)
    requires !IsConfig(b) && b.kind != "area"
    ensures var area := Find(blocks, IsEnabledArea);
            var p0 := BasePrice(Find(blocks, IsConfig), area, selections, pf);
            var e := Effects(blocks, selections, p0, pf);
            PreviewTotal(IsArray(blocks + [b]), selections, pf)
            == Conclude(p0, if e.Threw? then Threw else BlockEffect(e.acc, b, selections, p0, pf),
                        AreaFactor(area, selections, pf))
  {
    AppendKeepsBase(blocks, b);
    var area := Find(blocks, IsEnabledArea);
    var p0 := BasePrice(Find(blocks, IsConfig), area, selections, pf);
    var step := (a, b) => BlockEffect(a, b, selections, p0, pf);
    ThreadAppend(Ok(Start), blocks, [b], step);
    ThreadOne(Effects(blocks, selections, p0, pf), b, step);
  }

  /** An enabled block outside the picker, input and area types whose rule adds `v` per order
      raises the total by exactly `v`, whatever the area: order additions are not scaled. */
  lemma OrderAdditionIsNotScaled(blocks: seq<Block>, b: Block, v: real, selections: Selections, pf: ParseFloat)
    requires b.enabled && !IsConfig(b) && b.kind != "picker" && b.kind != "input" && b.kind != "area"
    requires b.pricing.Some? && b.pricing.value.mode == "added" && b.pricing.value.scope == "order"
    requires b.pricing.value.value == Num(v)
    ensures PreviewTotal(IsArray(blocks + [b]), selections, pf)
         == Raise(PreviewTotal(IsArray(blocks), selections, pf), v)
  {
    AppendedBlock(blocks, b, selections, pf);
    var area := Find(blocks, IsEnabledArea);
    var p0 := BasePrice(Find(blocks, IsConfig), area, selections, pf);
    var e := Effects(blocks, selections, p0, pf);
    var e' := if e.Threw? then Threw else BlockEffect(e.acc, b, selections, p0, pf);
    if e.Ok? {
      OrderRuleEffect(e.acc, b, v, selections, p0, pf);
    }
    ConcludeOrderAddition(p0, e, e', AreaFactor(area, selections, pf), v);
  }

  /** The same rule scoped to the unit instead raises the total by `v` times the area factor. */
  lemma UnitAdditionIsScaledByArea(blocks: seq<Block>, b: Block, v: real, selections: Selections, pf: ParseFloat)
    requires b.enabled && !IsConfig(b) && b.kind != "picker" && b.kind != "input" && b.kind != "area"
    requires b.pricing.Some? && b.pricing.value.mode == "added" && b.pricing.value.scope != "order"
    requires b.pricing.value.value == Num(v)
    ensures PreviewTotal(IsArray(blocks + [b]), selections, pf)
         == Raise(PreviewTotal(IsArray(blocks), selections, pf), Times(v, AreaFactor(Find(blocks, IsEnabledArea), selections, pf)))
  {
    AppendedBlock(blocks, b, selections, pf);
    var area := Find(blocks, IsEnabledArea);
    var p0 := BasePrice(Find(blocks, IsConfig), area, selections, pf);
    var e := Effects(blocks, selections, p0, pf);
    var e' := if e.Threw? then Threw else BlockEffect(e.acc, b, selections, p0, pf);
    if e.Ok? {
      UnitRuleEffect(e.acc, b, v, selections, p0, pf);
    }
    ConcludeUnitAddition(p0, e, e', AreaFactor(area, selections, pf), v);
  }

  /** A block that applies its own rule on each pass: enabled, not the config block, and of a
      type other than picker, input and area. */
  predicate AppliesOwnRule(b: Block) {
    b.enabled && !IsConfig(b) && b.kind != "picker" && b.kind != "input" && b.kind != "area" && b.pricing.Some?
  }

  /** The linear sum and compound factor applied to P0: `P0 * (1 + mLinearSum) * mCompoundFactor`. */
  function BasePart(p0: real, acc: Acc): real {
    Times(Times(p0, 1.0 + acc.mLinearSum), acc.mCompoundFactor)
  }

  /** An order-scope multiplier `m` raises the total by `P0 * m`, not scaled by the area. */
  lemma OrderMultiplierIsNotScaled(blocks: seq<Block>, b: Block, m: real, selections: Selections, pf: ParseFloat)
    requires AppliesOwnRule(b) && b.pricing.value.mode == "multiplier" && b.pricing.value.scope == "order"
    requires b.pricing.value.value == Num(m)
    ensures var p0 := BasePrice(Find(blocks, IsConfig), Find(blocks, IsEnabledArea), selections, pf);
            PreviewTotal(IsArray(blocks + [b]), selections, pf)
            == Raise(PreviewTotal(IsArray(blocks), selections, pf), Times(p0, m))
  {
    AppendedBlock(blocks, b, selections, pf);
    var area := Find(blocks, IsEnabledArea);
    var p0 := BasePrice(Find(blocks, IsConfig), area, selections, pf);
    var e := Effects(blocks, selections, p0, pf);
    var e' := if e.Threw? then Threw else BlockEffect(e.acc, b, selections, p0, pf);
    ConcludeOrderAddition(p0, e, e', AreaFactor(area, selections, pf), Times(p0, m));
  }

  /** A unit-scope linear multiplier `m` raises the total by `P0 * m` times the compound factor
      reached so far, scaled by the area: it adds to the sum that multiplies P0. */
  lemma LinearMultiplierAddsToSum(blocks: seq<Block>, b: Block, m: real, selections: Selections, pf: ParseFloat)
    requires AppliesOwnRule(b) && b.pricing.value.mode == "multiplier" && b.pricing.value.scope != "order"
    requires b.pricing.value.combine != "compound" && b.pricing.value.value == Num(m)
    ensures var area := Find(blocks, IsEnabledArea);
            var p0 := BasePrice(Find(blocks, IsConfig), area, selections, pf);
            var e := Effects(blocks, selections, p0, pf);
            var c := if e.Ok? then e.acc.mCompoundFactor else 0.0;
            PreviewTotal(IsArray(blocks + [b]), selections, pf)
            == Raise(PreviewTotal(IsArray(blocks), selections, pf),
                     Times(Times(Times(p0, m), c), AreaFactor(area, selections, pf)))
  {
    AppendedBlock(blocks, b, selections, pf);
    var area := Find(blocks, IsEnabledArea);
    var p0 := BasePrice(Find(blocks, IsConfig), area, selections, pf);
    var e := Effects(blocks, selections, p0, pf);
    var e' := if e.Threw? then Threw else BlockEffect(e.acc, b, selections, p0, pf);
    ConcludeLinearMultiplier(p0, e, e', AreaFactor(area, selections, pf), m);
  }

  /** A unit-scope compound multiplier `m` multiplies the part of the unit price that comes
      from P0 by `1 + m`, leaving the unit additions alone: the total rises by `m` times that
      part, scaled by the area. */
  lemma CompoundMultiplierScalesBasePart(blocks: seq<Block>, b: Block, m: real, selections: Selections, pf: ParseFloat)
    requires AppliesOwnRule(b) && b.pricing.value.mode == "multiplier" && b.pricing.value.scope != "order"
    requires b.pricing.value.combine == "compound" && b.pricing.value.value == Num(m)
    ensures var area := Find(blocks, IsEnabledArea);
            var p0 := BasePrice(Find(blocks, IsConfig), area, selections, pf);
            var e := Effects(blocks, selections, p0, pf);
            var part := if e.Ok? then BasePart(p0, e.acc) else 0.0;
            PreviewTotal(IsArray(blocks + [b]), selections, pf)
            == Raise(PreviewTotal(IsArray(blocks), selections, pf),
                     Times(Times(part, m), AreaFactor(area, selections, pf)))
  {
    AppendedBlock(blocks, b, selections, pf);
    var area := Find(blocks, IsEnabledArea);
    var p0 := BasePrice(Find(blocks, IsConfig), area, selections, pf);
    var e := Effects(blocks, selections, p0, pf);
    var e' := if e.Threw? then Threw else BlockEffect(e.acc, b, selections, p0, pf);
    ConcludeCompoundMultiplier(p0, e, e', AreaFactor(area, selections, pf), m);
  }

  /** On blocks that contribute nothing, one unit-scope multiplier `m`, linear or compound,
      gives `P0 * (1 + m)` times the area factor. */
  lemma UnitMultiplierOnNeutralBase(blocks: seq<Block>, b: Block, m: real, selections: Selections, pf: ParseFloat)
    requires AppliesOwnRule(b) && b.pricing.value.mode == "multiplier" && b.pricing.value.scope != "order"
    requires b.pricing.value.value == Num(m)
    requires Effects(blocks, selections,
                     BasePrice(Find(blocks, IsConfig), Find(blocks, IsEnabledArea), selections, pf), pf) == Ok(Start)
    ensures var area := Find(blocks, IsEnabledArea);
            var p0 := BasePrice(Find(blocks, IsConfig), area, selections, pf);
            PreviewTotal(IsArray(blocks + [b]), selections, pf)
            == Total(Times(Times(p0, 1.0 + m), AreaFactor(area, selections, pf)))
  {
    var area := Find(blocks, IsEnabledArea);
    var p0 := BasePrice(Find(blocks, IsConfig), area, selections, pf);
    var f := AreaFactor(area, selections, pf);
    assert PreviewTotal(IsArray(blocks), selections, pf) == Total(Finish(p0, Start, f));
    FinishStart(p0, f);
    if b.pricing.value.combine == "compound" {
      CompoundMultiplierScalesBasePart(blocks, b, m, selections, pf);
      assert BasePart(p0, Start) == p0 by {
        assert Times(p0, 1.0 + 0.0) == p0;
      }
    } else {
      LinearMultiplierAddsToSum(blocks, b, m, selections, pf);
      assert Times(Times(p0, m), 1.0) == Times(p0, m);
    }
    ScaledBaseSum(p0, m, f);
  }

  lemma ScaledBaseSum(p0: real, m: real, f: real)
    ensures Times(p0, f) + Times(Times(p0, m), f) == Times(Times(p0, 1.0 + m), f)
  {
  }

  lemma ConcludeLinearMultiplier(p0: real, e: Outcome, e': Outcome, f: real, m: real)
    requires e.Threw? ==> e'.Threw?
    requires e.Ok? ==> e' == Ok(e.acc.(mLinearSum := e.acc.mLinearSum + m))
    ensures var c := if e.Ok? then e.acc.mCompoundFactor else 0.0;
            Conclude(p0, e', f) == Raise(Conclude(p0, e, f), Times(Times(Times(p0, m), c), f))
  {
    if e.Ok? {
      var acc := e.acc;
      var c, u := acc.mCompoundFactor, acc.aUnit;
      assert Times(p0, 1.0 + (acc.mLinearSum + m)) == Times(p0, 1.0 + acc.mLinearSum) + Times(p0, m);
      var x, y := Times(p0, 1.0 + acc.mLinearSum), Times(p0, m);
      assert Times(x + y, c) == Times(x, c) + Times(y, c);
      assert Times(Times(x, c) + Times(y, c) + u, f) == Times(Times(x, c) + u, f) + Times(Times(y, c), f);
    }
  }

  lemma ConcludeCompoundMultiplier(p0: real, e: Outcome, e': Outcome, f: real, m: real)
    requires e.Threw? ==> e'.Threw?
    requires e.Ok? ==> e' == Ok(e.acc.(mCompoundFactor := Times(e.acc.mCompoundFactor, 1.0 + m)))
    ensures var part := if e.Ok? then BasePart(p0, e.acc) else 0.0;
            Conclude(p0, e', f) == Raise(Conclude(p0, e, f), Times(Times(part, m), f))
  {
    if e.Ok? {
      var acc := e.acc;
      var x, c, u := Times(p0, 1.0 + acc.mLinearSum), acc.mCompoundFactor, acc.aUnit;
      assert Times(x, Times(c, 1.0 + m)) == Times(x, c) + Times(Times(x, c), m);
      var part := Times(x, c);
      assert Times(part + Times(part, m) + u, f) == Times(part + u, f) + Times(Times(part, m), f);
    }
  }

  /** The turn of such a block with an order-scoped rule adds `v` to the order addition only. */
  lemma OrderRuleEffect(acc: Acc, b: Block, v: real, selections: Selections, p0: real, pf: ParseFloat)
    requires b.enabled && !IsConfig(b) && b.kind != "picker" && b.kind != "input" && b.kind != "area"
    requires b.pricing.Some? && b.pricing.value.mode == "added" && b.pricing.value.scope == "order"
    requires b.pricing.value.value == Num(v)
    ensures BlockEffect(acc, b, selections, p0, pf) == Ok(acc.(aOrder := acc.aOrder + v))
  {
  }

  /** The turn of such a block with a unit-scoped rule adds `v` to the unit addition only. */
  lemma UnitRuleEffect(acc: Acc, b: Block, v: real, selections: Selections, p0: real, pf: ParseFloat)
    requires b.enabled && !IsConfig(b) && b.kind != "picker" && b.kind != "input" && b.kind != "area"
    requires b.pricing.Some? && b.pricing.value.mode == "added" && b.pricing.value.scope != "order"
    requires b.pricing.value.value == Num(v)
    ensures BlockEffect(acc, b, selections, p0, pf) == Ok(acc.(aUnit := acc.aUnit + v))
  {
  }

  lemma ConcludeOrderAddition(p0: real, e: Outcome, e': Outcome, f: real, v: real)
    requires e.Threw? ==> e'.Threw?
    requires e.Ok? ==> e' == Ok(e.acc.(aOrder := e.acc.aOrder + v))
    ensures Conclude(p0, e', f) == Raise(Conclude(p0, e, f), v)
  {
  }

  lemma ConcludeUnitAddition(p0: real, e: Outcome, e': Outcome, f: real, v: real)
    requires e.Threw? ==> e'.Threw?
    requires e.Ok? ==> e' == Ok(e.acc.(aUnit := e.acc.aUnit + v))
    ensures Conclude(p0, e', f) == Raise(Conclude(p0, e, f), Times(v, f))
  {
    if e.Ok? {
      var acc := e.acc;
      var x := Times(Times(p0, 1.0 + acc.mLinearSum), acc.mCompoundFactor);
      assert Times(x + (acc.aUnit + v), f) == Times(x + acc.aUnit, f) + Times(v, f);
    }
  }

  /** A number input whose rule has value `k`, holding the quantity `q`, applies its rule with
      the value `k * q`: an "added" rule adds it per unit or per order, a multiplier adds it to
      the linear sum, multiplies the compound factor by `1 + k * q`, or adds `P0 * k * q` per
      order. A quantity of 0 is evaluated and contributes the neutral amount. */
  lemma NumberInputScalesByQuantity(acc: Acc, b: Block, q: real, k: real, selections: Selections, p0: real, pf: ParseFloat)
    requires b.enabled && b.kind == "input" && (b.subtype == "number" || b.subtype == "float")
    requires b.pricing.Some? && (b.pricing.value.mode == "added" || b.pricing.value.mode == "multiplier")
    requires b.pricing.value.value == Num(k) && Lookup(selections, b.id) == Num(q)
    ensures var r := b.pricing.value; var e := BlockEffect(acc, b, selections, p0, pf);
            && (r.mode == "added" && r.scope != "order" ==> e == Ok(acc.(aUnit := acc.aUnit + Times(k, q))))
            && (r.mode == "added" && r.scope == "order" ==> e == Ok(acc.(aOrder := acc.aOrder + Times(k, q))))
            && (r.mode == "multiplier" && r.scope == "order"
                ==> e == Ok(acc.(aOrder := acc.aOrder + Times(p0, Times(k, q)))))
            && (r.mode == "multiplier" && r.scope != "order" && r.combine == "compound"
                ==> e == Ok(acc.(mCompoundFactor := Times(acc.mCompoundFactor, 1.0 + Times(k, q)))))
            && (r.mode == "multiplier" && r.scope != "order" && r.combine != "compound"
                ==> e == Ok(acc.(mLinearSum := acc.mLinearSum + Times(k, q))))
  {
  }

  /** A disabled block that is not the config block can be deleted without changing the preview. */
  lemma DisabledBlockIsRemoved(blocks: seq<Block>, i: nat, selections: Selections, pf: ParseFloat)
    requires i < |blocks| && !blocks[i].enabled && !IsConfig(blocks[i])
    ensures PreviewTotal(IsArray(RemoveAt(blocks, i)), selections, pf) == PreviewTotal(IsArray(blocks), selections, pf)
  {
    FindRemoveRejected(blocks, i, IsConfig);
    FindRemoveRejected(blocks, i, IsEnabledArea);
    var p0 := BasePrice(Find(blocks, IsConfig), Find(blocks, IsEnabledArea), selections, pf);
    SkippedBlockKeepsEffects(blocks, i, selections, p0, pf);
  }

  lemma SkippedBlockKeepsEffects(blocks: seq<Block>, i: nat, selections: Selections, p0: real, pf: ParseFloat)
    requires i < |blocks| && !blocks[i].enabled
    ensures Effects(RemoveAt(blocks, i), selections, p0, pf) == Effects(blocks, selections, p0, pf)
  {
    var step := (a, b) => BlockEffect(a, b, selections, p0, pf);
    var pre, post := blocks[..i], blocks[i + 1..];
    assert RemoveAt(blocks, i) == pre + post;
    assert blocks == (pre + [blocks[i]]) + post;
    ThreadAppend(Ok(Start), pre, post, step);
    ThreadAppend(Ok(Start), pre + [blocks[i]], post, step);
    ThreadAppend(Ok(Start), pre, [blocks[i]], step);
    ThreadOne(Thread(Ok(Start), pre, step), blocks[i], step);
  }

  // ---------------------------------------------------------------------------------------
  // The loop

  /** `computeTotalPrice({ config, selections })`, returning `Thrown` where the source throws. */
  method ComputeTotalPrice(config: ArrayOrNot<Block>, selections: Selections, pf: ParseFloat) returns (r: Evaluation)
    ensures r == PreviewTotal(config, selections, pf)
  {
    if config.NotArray? {
      return Total(0.0);
    }
    var blocks := config.items;
    var area := Find(blocks, IsEnabledArea);
    var p0 := BasePrice(Find(blocks, IsConfig), area, selections, pf);
    var acc := Start;
    var i := 0;
    while i < |blocks|
      invariant 0 <= i <= |blocks|
      invariant Thread(Ok(Start), blocks[..i], (a, b) => BlockEffect(a, b, selections, p0, pf)) == Ok(acc)
    {
      var next := ProcessBlock(acc, blocks[i], selections, p0, pf);
      ThreadSnoc(Ok(Start), blocks, i, (a, b) => BlockEffect(a, b, selections, p0, pf));
      if next.Threw? {
        ThreadStaysThrown(Ok(Start), blocks, i + 1, (a, b) => BlockEffect(a, b, selections, p0, pf));
        return Thrown;
      }
      acc := next.acc;
      i := i + 1;
    }
    assert blocks[..i] == blocks;
    r := Total(Finish(p0, acc, AreaFactor(area, selections, pf)));
  }

  method ProcessBlock(acc: Acc, b: Block, selections: Selections, p0: real, pf: ParseFloat) returns (r: Outcome)
    ensures r == BlockEffect(acc, b, selections, p0, pf)
  {
    if !b.enabled {
      return Ok(acc);
    }
    var sel := Lookup(selections, b.id);
    if b.kind == "picker" {
      if !Truthy(sel) {
        return Ok(acc);
      }
      r := SelectedEffect(acc, b.options, sel, p0, pf);
      if r.Ok? && b.isNested && b.nested.Some? {
        r := ProcessNestedGroups(r.acc, b.nested.value, sel, selections, p0, pf);
      }
    } else if b.kind == "input" {
      if !Truthy(sel) && sel != Num(0.0) {
        return Ok(acc);
      }
      r := Ok(InputEffect(acc, b, sel, p0, pf));
    } else if b.kind == "area" {
      r := Ok(acc);
    } else if b.pricing.Some? {
      r := Ok(ApplyPricing(acc, b.pricing.value, p0, pf));
    } else {
      r := Ok(acc);
    }
  }

  method ProcessNestedGroups(acc: Acc, groups: seq<NestedGroup>, sel: JsValue, selections: Selections, p0: real, pf: ParseFloat)
    returns (r: Outcome)
    ensures r == Thread(Ok(acc), groups, (a, g) => GroupEffect(a, g, sel, selections, p0, pf))
  {
    var cur := acc;
    var j := 0;
    while j < |groups|
      invariant 0 <= j <= |groups|
      invariant Thread(Ok(acc), groups[..j], (a, g) => GroupEffect(a, g, sel, selections, p0, pf)) == Ok(cur)
    {
      var next := Ok(cur);
      if GroupActive(groups[j], sel) {
        next := ProcessGroupItems(cur, groups[j].items, selections, p0, pf);
      }
      ThreadSnoc(Ok(acc), groups, j, (a, g) => GroupEffect(a, g, sel, selections, p0, pf));
      if next.Threw? {
        ThreadStaysThrown(Ok(acc), groups, j + 1, (a, g) => GroupEffect(a, g, sel, selections, p0, pf));
        return Threw;
      }
      cur := next.acc;
      j := j + 1;
    }
    assert groups[..j] == groups;
    r := Ok(cur);
  }

  method ProcessGroupItems(acc: Acc, items: seq<Block>, selections: Selections, p0: real, pf: ParseFloat)
    returns (r: Outcome)
    ensures r == Thread(Ok(acc), items, (a, item) => ItemEffect(a, item, selections, p0, pf))
  {
    var cur := acc;
    var k := 0;
    while k < |items|
      invariant 0 <= k <= |items|
      invariant Thread(Ok(acc), items[..k], (a, item) => ItemEffect(a, item, selections, p0, pf)) == Ok(cur)
    {
      var subSel := Lookup(selections, items[k].id);
      var next := Ok(cur);
      if Truthy(subSel) {
        next := SelectedEffect(cur, items[k].options, subSel, p0, pf);
      }
      ThreadSnoc(Ok(acc), items, k, (a, item) => ItemEffect(a, item, selections, p0, pf));
      if next.Threw? {
        ThreadStaysThrown(Ok(acc), items, k + 1, (a, item) => ItemEffect(a, item, selections, p0, pf));
        return Threw;
      }
      cur := next.acc;
      k := k + 1;
    }
    assert items[..k] == items;
    r := Ok(cur);
  }
}
