/** The customizer configuration: an ordered list of blocks tagged by `type`
    ("config", "picker", "input", "area" or anything else), the selection map the pricing
    engines read, and the shallow merge `{ ...value, ...patch }` the editors apply to blocks. */
module Blocks {
  import opened Js

  /** A pricing rule `{ mode, value, scope, combine }`. A string key that is absent is "";
      presentation keys (`show`, `per`) are not kept. */
  datatype Rule = Rule(mode: string, value: JsValue, scope: string, combine: string)

  /** One choice of a picker. `added` is the legacy price field; `media` and any other key
      live in `extra`. */
  datatype PickerOption = PickerOption(
    labelText: string,
    value: string,
    pricing: Option<Rule>,
    added: JsValue,
    extra: map<string, JsValue>)

  datatype When = When(parentId: Option<string>, equals: string)

  /** A conditional group of a nested picker: its `items` are picker-shaped blocks. */
  datatype NestedGroup = NestedGroup(when: When, items: seq<Block>)

  /** One block. `kind` is the `type` key; `enabled` and `isNested` are the truthiness of those
      keys; `nested` is None when that key does not hold an array; `pricing` is None when it
      is absent or falsy. Keys no operation here reads (`currency`, `show_price`, `unit`,
      `limits`, `placeholder`, `validation`, guide settings, ...) live in `extra`. */
  datatype Block = Block(
    kind: string,
    id: Option<string>,
    title: string,
    enabled: bool,
    pricing: Option<Rule>,
    options: seq<PickerOption>,
    isNested: bool,
    nested: Option<seq<NestedGroup>>,
    subtype: string,
    unitPrice: JsValue,
    basePrice: JsValue,
    baseSource: string,
    stepOrder: seq<string>,
    extra: map<string, JsValue>)

  /** A block of the given type with no other key set. */
  function Bare(kind: string): (b: Block)
    ensures b.kind == kind && b.id == None && !b.enabled && b.options == [] && b.extra == map[]
  {
    Block(kind, None, "", false, None, [], false, None, "", Undefined, Undefined, "", [], map[])
  }

  /** Selection values keyed by block id (and nested item id). A selection object that is
      missing or null reads like the empty map. */
  type Selections = map<string, JsValue>

  /** The property key `selections[block.id]` uses: a missing id becomes "undefined". */
  function SelectionKey(id: Option<string>): string {
    if id.Some? then id.value else "undefined"
  }

  /** `selections?.[key]`: a key that is not there reads as undefined. */
  function Get(selections: Selections, key: string): (v: JsValue)
    ensures key !in selections ==> v == Undefined
    ensures key in selections ==> v == selections[key]
  {
    if key in selections then selections[key] else Undefined
  }

  /** `selections?.[block.id]`. */
  function Lookup(selections: Selections, id: Option<string>): JsValue {
    Get(selections, SelectionKey(id))
  }

  /** `b.id` used as a condition: present and not the empty string. */
  predicate HasTruthyId(b: Block) {
    b.id.Some? && b.id.value != ""
  }

  /** `list.find(p)`: the first element that satisfies `p`. */
  function Find(blocks: seq<Block>, p: Block -> bool): (r: Option<Block>)
    ensures r.Some? ==> r.value in blocks && p(r.value)
    ensures r.None? <==> forall i :: 0 <= i < |blocks| ==> !p(blocks[i])
  {
    if blocks == [] then None
    else if p(blocks[0]) then Some(blocks[0])
    else Find(blocks[1..], p)
  }

  /** The first match in `a + c` is the first match in `a`, or else the first in `c`. */
  lemma {:induction false} FindAppend(a: seq<Block>, c: seq<Block>, p: Block -> bool)
    ensures Find(a + c, p) == if Find(a, p).Some? then Find(a, p) else Find(c, p)
  {
    if a != [] {
      assert (a + c)[0] == a[0];
      assert (a + c)[1..] == a[1..] + c;
      FindAppend(a[1..], c, p);
    } else {
      assert a + c == c;
    }
  }

  /** Dropping an element the predicate rejects does not change which element is found. */
  lemma FindRemoveRejected(blocks: seq<Block>, i: nat, p: Block -> bool)
    requires i < |blocks| && !p(blocks[i])
    ensures Find(RemoveAt(blocks, i), p) == Find(blocks, p)
  {
    var pre, post := blocks[..i], blocks[i + 1..];
    assert RemoveAt(blocks, i) == pre + post;
    assert blocks == pre + ([blocks[i]] + post);
    FindAppend(pre, [blocks[i]] + post, p);
    assert Find([blocks[i]] + post, p) == Find(post, p) by {
      assert ([blocks[i]] + post)[1..] == post;
    }
    FindAppend(pre, post, p);
  }

  /** `list.findIndex(p)`: the index of the first element that satisfies `p`, or -1. */
  function FindIndex(blocks: seq<Block>, p: Block -> bool): (r: int)
    ensures -1 <= r < |blocks|
    ensures r >= 0 ==> p(blocks[r]) && forall j :: 0 <= j < r ==> !p(blocks[j])
    ensures r == -1 <==> forall j :: 0 <= j < |blocks| ==> !p(blocks[j])
  {
    if blocks == [] then -1
    else if p(blocks[0]) then 0
    else var k := FindIndex(blocks[1..], p); if k == -1 then -1 else k + 1
  }

  /** `(options || []).find((o) => o.value === sel)`. */
  function FindOption(options: seq<PickerOption>, sel: JsValue): (r: Option<PickerOption>)
    ensures r.Some? ==> r.value in options && sel == Str(r.value.value)
    ensures r.None? <==> forall i :: 0 <= i < |options| ==> sel != Str(options[i].value)
  {
    if options == [] then None
    else if sel == Str(options[0].value) then Some(options[0])
    else FindOption(options[1..], sel)
  }

  /** `group?.when?.equals && group.when.equals === sel`. */
  predicate GroupActive(g: NestedGroup, sel: JsValue) {
    g.when.equals != "" && sel == Str(g.when.equals)
  }

  predicate IsConfig(b: Block) {
    b.kind == "config"
  }

  /** `blocks.findIndex((b) => b.type === "config")`. */
  function ConfigIndex(blocks: seq<Block>): int {
    FindIndex(blocks, IsConfig)
  }

  /** The config index is the position of the first config block. */
  lemma {:induction false} ConfigIndexAt(s: seq<Block>, c: nat)
    requires c < |s| && IsConfig(s[c]) && forall j :: 0 <= j < c ==> !IsConfig(s[j])
    ensures ConfigIndex(s) == c
  {
    if c > 0 {
      ConfigIndexAt(s[1..], c - 1);
    }
  }

  /** Without a config block the index is -1. */
  lemma {:induction false} ConfigIndexNone(s: seq<Block>)
    requires forall j :: 0 <= j < |s| ==> !IsConfig(s[j])
    ensures ConfigIndex(s) == -1
  {
    if s != [] {
      ConfigIndexNone(s[1..]);
    }
  }

  predicate IsEnabledArea(b: Block) {
    b.kind == "area" && b.enabled
  }

  /** A patch object: each present key replaces that key of the block; `extra` holds the
      patch's other keys. */
  datatype BlockPatch = BlockPatch(
    kind: Option<string>,
    id: Option<string>,
    title: Option<string>,
    enabled: Option<bool>,
    pricing: Option<Rule>,
    options: Option<seq<PickerOption>>,
    isNested: Option<bool>,
    nested: Option<seq<NestedGroup>>,
    subtype: Option<string>,
    unitPrice: Option<JsValue>,
    basePrice: Option<JsValue>,
    baseSource: Option<string>,
    stepOrder: Option<seq<string>>,
    extra: map<string, JsValue>)

  const EmptyPatch := BlockPatch(None, None, None, None, None, None, None, None, None, None, None, None, None, map[])

  function Pick<T>(p: Option<T>, old_: T): T {
    if p.Some? then p.value else old_
  }

  /** The property names that have a field of their own in `Block` and `BlockPatch`. */
  const TypedKeys: set<string> := {"type", "id", "title", "enabled", "pricing", "options", "isNested",
    "nested", "subtype", "unit_price", "base_price", "base_source", "step_order"}

  /** A block or patch whose `extra` holds none of the typed property names, so that every
      property is stored in exactly one place. */
  predicate ExtraIsUntyped(extra: map<string, JsValue>) {
    extra.Keys !! TypedKeys
  }

  /** `{ ...b, ...p }`: every property the patch holds replaces the block's, every other
      property keeps the block's value. */
  function Merge(b: Block, p: BlockPatch): (r: Block)
    ensures p.kind.Some? ==> r.kind == p.kind.value
    ensures p.kind.None? ==> r.kind == b.kind
    ensures p.id.Some? ==> r.id == p.id
    ensures p.id.None? ==> r.id == b.id
    ensures p.title.Some? ==> r.title == p.title.value
    ensures p.title.None? ==> r.title == b.title
    ensures p.enabled.Some? ==> r.enabled == p.enabled.value
    ensures p.enabled.None? ==> r.enabled == b.enabled
    ensures p.pricing.Some? ==> r.pricing == p.pricing
    ensures p.pricing.None? ==> r.pricing == b.pricing
    ensures p.options.Some? ==> r.options == p.options.value
    ensures p.options.None? ==> r.options == b.options
    ensures p.isNested.Some? ==> r.isNested == p.isNested.value
    ensures p.isNested.None? ==> r.isNested == b.isNested
    ensures p.nested.Some? ==> r.nested == p.nested
    ensures p.nested.None? ==> r.nested == b.nested
    ensures p.subtype.Some? ==> r.subtype == p.subtype.value
    ensures p.subtype.None? ==> r.subtype == b.subtype
    ensures p.unitPrice.Some? ==> r.unitPrice == p.unitPrice.value
    ensures p.unitPrice.None? ==> r.unitPrice == b.unitPrice
    ensures p.basePrice.Some? ==> r.basePrice == p.basePrice.value
    ensures p.basePrice.None? ==> r.basePrice == b.basePrice
    ensures p.baseSource.Some? ==> r.baseSource == p.baseSource.value
    ensures p.baseSource.None? ==> r.baseSource == b.baseSource
    ensures p.stepOrder.Some? ==> r.stepOrder == p.stepOrder.value
    ensures p.stepOrder.None? ==> r.stepOrder == b.stepOrder
    ensures r.extra.Keys == b.extra.Keys + p.extra.Keys
    ensures forall k :: k in p.extra ==> r.extra[k] == p.extra[k]
    ensures forall k :: k in b.extra && k !in p.extra ==> r.extra[k] == b.extra[k]
  {
    Block(
      Pick(p.kind, b.kind),
      if p.id.Some? then p.id else b.id,
      Pick(p.title, b.title),
      Pick(p.enabled, b.enabled),
      if p.pricing.Some? then p.pricing else b.pricing,
      Pick(p.options, b.options),
      Pick(p.isNested, b.isNested),
      if p.nested.Some? then p.nested else b.nested,
      Pick(p.subtype, b.subtype),
      Pick(p.unitPrice, b.unitPrice),
      Pick(p.basePrice, b.basePrice),
      Pick(p.baseSource, b.baseSource),
      Pick(p.stepOrder, b.stepOrder),
      b.extra + p.extra)
  }

  /** Merging a patch whose `extra` holds no typed property name into such a block gives such
      a block. */
  lemma MergeKeepsExtraUntyped(b: Block, p: BlockPatch)
    requires ExtraIsUntyped(b.extra) && ExtraIsUntyped(p.extra)
    ensures ExtraIsUntyped(Merge(b, p).extra)
  {
    var keys := Merge(b, p).extra.Keys;
    assert keys == b.extra.Keys + p.extra.Keys;
    forall k | k in keys
      ensures k !in TypedKeys
    {
      if k in b.extra.Keys {
        assert k !in TypedKeys;
      }
    }
  }

  /** Spreading a patch twice is spreading it once, and an empty patch changes nothing. */
  lemma MergeIdempotent(b: Block, p: BlockPatch)
    ensures Merge(Merge(b, p), p) == Merge(b, p)
    ensures Merge(b, EmptyPatch) == b
  {
    assert b.extra + map[] == b.extra;
  }

  /** A patch for one picker option, merged the same way. */
  datatype OptionPatch = OptionPatch(
    labelText: Option<string>,
    value: Option<string>,
    pricing: Option<Rule>,
    added: Option<JsValue>,
    extra: map<string, JsValue>)

  function MergeOption(o: PickerOption, p: OptionPatch): PickerOption {
    PickerOption(
      Pick(p.labelText, o.labelText),
      Pick(p.value, o.value),
      if p.pricing.Some? then p.pricing else o.pricing,
      Pick(p.added, o.added),
      o.extra + p.extra)
  }

  /** A patch for one nested group. */
  datatype GroupPatch = GroupPatch(when: Option<When>, items: Option<seq<Block>>)

  function MergeGroup(g: NestedGroup, p: GroupPatch): NestedGroup {
    NestedGroup(Pick(p.when, g.when), Pick(p.items, g.items))
  }
}
