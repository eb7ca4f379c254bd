/** The block-list edits of the customizer editor. Each handler copies the current list,
    changes the copy and makes it the new state; here each is a function from the current
    list to the next one, except `duplicateBlock`, whose search for a free id is a loop. */
module CustomizerEditor {
  import opened Js
  import opened Blocks
  import opened Slug

  /** The one block of `getDefaultStructure()`. */
  const DefaultConfig := Block(
    "config", None, "Product Customizer", true, None, [], false, None, "", Undefined, Num(0.0), "", [],
    map["show_price" := Bool(true), "currency" := Str("USD")])

  /** `getDefaultStructure()`: a list holding only the default config block. */
  const DefaultStructure := [DefaultConfig]

  /** `parseInitial(data)`: a list is used as it is; the empty string stands for `"[]"`; any
      other string is parsed, and a result that is not a list, a parse failure or a value of
      any other kind gives the default structure. */
  function ParseInitial(data: Initial<Block>, parse: JsonParse<Block>): (r: seq<Block>)
    ensures data.InitArray? ==> r == data.items
    ensures data == InitString("") ==> r == []
    ensures data.InitString? && data.s != "" && parse(data.s).JsonArray? ==> r == parse(data.s).items
    ensures data.InitString? && data.s != "" && !parse(data.s).JsonArray? ==> r == DefaultStructure
    ensures data.InitOther? ==> r == DefaultStructure
  {
    match data
    case InitArray(items) => items
    case InitString(s) =>
      if s == "" then []
      else (match parse(s)
            case JsonArray(items) => items
            case _ => DefaultStructure)
    case InitOther => DefaultStructure
  }

  /** Whenever the editor falls back to the default, the list it starts from has its config
      block at the front. */
  lemma DefaultHasConfigFirst()
    ensures ConfigIndex(DefaultStructure) == 0
    ensures DefaultStructure[0].enabled && DefaultStructure[0].basePrice == Num(0.0)
  {
  }

  /** `{ mode: "none", value: 0 }`. */
  const NoPricing := Rule("none", Num(0.0), "", "")

  /** `{ type: "hex", hex: "#000000" }`, the media of a new picker option. */
  const BlackSwatch := Obj(map["type" := Str("hex"), "hex" := Str("#000000")])

  /** `createDefaultBlock(type)`. Its random id suffix is a parameter. */
  function CreateDefaultBlock(kind: string, suffix: string): (b: Block)
    ensures b.kind == kind && b.id == Some(kind + "-" + suffix) && b.enabled
    ensures kind == "picker" ==> b.title == "Picker" && !b.isNested && b.pricing == Some(NoPricing)
                                 && b.options == [PickerOption("Option A", "a", None, Num(0.0), map["media" := BlackSwatch])]
                                 && b.nested == Some([])
    ensures kind == "input" ==> b.title == "Input" && b.subtype == "text" && b.pricing == Some(NoPricing)
    ensures kind == "area" ==> b.title == "Area" && b.pricing == Some(Rule("multiplier", Num(100.0), "", ""))
    ensures kind != "picker" && kind != "input" && kind != "area" ==>
              b.title == kind && b.pricing.None? && b.options == [] && b.extra == map[]
  {
    var id := Some(kind + "-" + suffix);
    if kind == "picker" then
      Bare("picker").(id := id, title := "Picker", enabled := true, pricing := Some(NoPricing),
                      options := [PickerOption("Option A", "a", None, Num(0.0), map["media" := BlackSwatch])],
                      nested := Some([]))
    else if kind == "input" then
      Bare("input").(id := id, title := "Input", enabled := true, subtype := "text", pricing := Some(NoPricing),
                     extra := map["placeholder" := Str(""), "validation" := Obj(map[])])
    else if kind == "area" then
      Bare("area").(id := id, title := "Area", enabled := true,
                    pricing := Some(Rule("multiplier", Num(100.0), "", "")),
                    extra := map["unit" := Str("cm"),
                                 "limits" := Obj(map[
                                   "width" := Obj(map["min" := Num(50.8), "max" := Num(304.8)]),
                                   "height" := Obj(map["min" := Num(50.8), "max" := Num(1016.0)])])])
    else
      Bare(kind).(id := id, title := kind, enabled := true)
  }

  /** `updateConfig(patch)`: spread the patch over the config block, or, when there is none,
      put the default config with the patch spread over it in front. */
  function UpdateConfig(blocks: seq<Block>, patch: BlockPatch): (r: seq<Block>)
  {
    var c := ConfigIndex(blocks);
    if c >= 0 then blocks[c := Merge(blocks[c], patch)]
    else [Merge(DefaultConfig, patch)] + blocks
  }

  /** A patch that leaves `type` alone lands on the config block: the existing one, with
      every other block unchanged, or a new default one in front of the old list. */
  lemma UpdateConfigTargetsConfig(blocks: seq<Block>, patch: BlockPatch)
    requires patch.kind.None?
    ensures var r := UpdateConfig(blocks, patch);
            var c := ConfigIndex(blocks);
            if c >= 0 then
              ConfigIndex(r) == c && |r| == |blocks| && r[c] == Merge(blocks[c], patch)
              && forall i :: 0 <= i < |r| && i != c ==> r[i] == blocks[i]
            else
              ConfigIndex(r) == 0 && r[0] == Merge(DefaultConfig, patch) && r[1..] == blocks
  {
    var r := UpdateConfig(blocks, patch);
    var c := ConfigIndex(blocks);
    if c >= 0 {
      assert forall j :: 0 <= j < c ==> r[j] == blocks[j];
      ConfigIndexAt(r, c);
    } else {
      ConfigIndexAt(r, 0);
    }
  }

  /** Applying the same config patch twice is applying it once. */
  lemma UpdateConfigIdempotent(blocks: seq<Block>, patch: BlockPatch)
    requires patch.kind.None?
    ensures UpdateConfig(UpdateConfig(blocks, patch), patch) == UpdateConfig(blocks, patch)
  {
    var r := UpdateConfig(blocks, patch);
    UpdateConfigTargetsConfig(blocks, patch);
    var c := ConfigIndex(r);
    if ConfigIndex(blocks) >= 0 {
      MergeIdempotent(blocks[c], patch);
    } else {
      MergeIdempotent(DefaultConfig, patch);
    }
  }

  /** `addBlock()`: a new block of the selected type at the end. */
  function AddBlock(blocks: seq<Block>, kind: string, suffix: string): (r: seq<Block>)
    ensures |r| == |blocks| + 1 && r[..|blocks|] == blocks && r[|blocks|] == CreateDefaultBlock(kind, suffix)
    ensures ConfigIndex(blocks) >= 0 ==> ConfigIndex(r) == ConfigIndex(blocks)
  {
    blocks + [CreateDefaultBlock(kind, suffix)]
  }

  /** `removeBlock(index)`: the config block is never removed; any other index is dropped. */
  function RemoveBlock(blocks: seq<Block>, index: int): (r: seq<Block>)
  {
    if index == ConfigIndex(blocks) then blocks else RemoveAt(blocks, index)
  }

  /** Removing leaves the config block the editor finds in place and keeps the other blocks'
      order; the list is unchanged for the config index. */
  lemma RemoveBlockKeepsConfig(blocks: seq<Block>, index: int)
    ensures var r := RemoveBlock(blocks, index);
            && Find(r, IsConfig) == Find(blocks, IsConfig)
            && (index == ConfigIndex(blocks) ==> r == blocks)
            && (index != ConfigIndex(blocks) && 0 <= index < |blocks| ==>
                  |r| == |blocks| - 1
                  && (forall j :: 0 <= j < index ==> r[j] == blocks[j])
                  && (forall j :: index <= j < |r| ==> r[j] == blocks[j + 1]))
  {
    var c := ConfigIndex(blocks);
    if index != c && 0 <= index < |blocks| {
      if c == -1 || index < c {
        FindRemoveRejected(blocks, index, IsConfig);
      } else {
        var r := RemoveAt(blocks, index);
        assert r == blocks[..index] + blocks[index + 1..];
        assert blocks == blocks[..index] + blocks[index..];
        FindAppend(blocks[..index], blocks[index + 1..], IsConfig);
        FindAppend(blocks[..index], blocks[index..], IsConfig);
        FindPrefix(blocks, c, index);
      }
    }
  }

  /** The config block found in a prefix that reaches past it. */
  lemma FindPrefix(blocks: seq<Block>, c: int, n: nat)
    requires c == ConfigIndex(blocks) && 0 <= c < n <= |blocks|
    ensures Find(blocks[..n], IsConfig) == Some(blocks[c])
  {
    FindAtFirstMatch(blocks[..n], c);
  }

  lemma {:induction false} FindAtFirstMatch(s: seq<Block>, c: nat)
    requires c < |s| && IsConfig(s[c]) && forall j :: 0 <= j < c ==> !IsConfig(s[j])
    ensures Find(s, IsConfig) == Some(s[c])
  {
    if c > 0 {
      FindAtFirstMatch(s[1..], c - 1);
    }
  }

  /** `updateBlock(index, patch)`: spread the patch over one block. */
  function UpdateBlock(blocks: seq<Block>, index: nat, patch: BlockPatch): (r: seq<Block>)
    requires index < |blocks|
    ensures |r| == |blocks| && r[index] == Merge(blocks[index], patch)
    ensures forall i :: 0 <= i < |r| && i != index ==> r[i] == blocks[i]
  {
    blocks[index := Merge(blocks[index], patch)]
  }

  /** `toggleCollapse(id)`: flip whether one id is collapsed. */
  function ToggleCollapse(collapsed: set<string>, id: string): (r: set<string>)
    ensures id in r <==> id !in collapsed
    ensures forall x :: x != id ==> (x in r <==> x in collapsed)
  {
    if id in collapsed then collapsed - {id} else collapsed + {id}
  }

  /** Toggling the same id twice restores the set. */
  lemma ToggleTwiceRestores(collapsed: set<string>, id: string)
    ensures ToggleCollapse(ToggleCollapse(collapsed, id), id) == collapsed
  {
  }

  /** `moveBlock(fromIdx, toIdx)`: nothing happens when either index is the config block's or
      the target is outside the list; otherwise the block is taken out and re-inserted so
      that it lands at `toIdx`. */
  function MoveBlock(blocks: seq<Block>, from: nat, to: int): (r: seq<Block>)
    requires from < |blocks|
  {
    var c := ConfigIndex(blocks);
    if from == c || to == c || to < 0 || to >= |blocks| then blocks
    else InsertAt(RemoveAt(blocks, from), to, blocks[from])
  }

  predicate MoveAllowed(blocks: seq<Block>, from: nat, to: int) {
    var c := ConfigIndex(blocks);
    from < |blocks| && from != c && to != c && 0 <= to < |blocks|
  }

  /** A move rearranges the blocks without adding or losing any, and puts the moved block at
      the target; a refused move changes nothing. */
  lemma MoveBlockPermutes(blocks: seq<Block>, from: nat, to: int)
    requires from < |blocks|
    ensures var r := MoveBlock(blocks, from, to);
            && multiset(r) == multiset(blocks)
            && (MoveAllowed(blocks, from, to) ==> |r| == |blocks| && r[to] == blocks[from])
            && (!MoveAllowed(blocks, from, to) ==> r == blocks)
  {
    if MoveAllowed(blocks, from, to) {
      MovePermutes(blocks, from, to);
    }
  }

  /** Taking the element at `from` out and putting it back at `to` keeps the same elements. */
  lemma MovePermutes<T>(s: seq<T>, from: nat, to: nat)
    requires from < |s| && to < |s|
    ensures multiset(InsertAt(RemoveAt(s, from), to, s[from])) == multiset(s)
  {
    var rest := RemoveAt(s, from);
    assert rest == s[..from] + s[from + 1..];
    assert s == s[..from] + [s[from]] + s[from + 1..];
    assert multiset(rest) + multiset{s[from]} == multiset(s);
    var r := InsertAt(rest, to, s[from]);
    assert r == rest[..to] + [s[from]] + rest[to..];
    assert rest == rest[..to] + rest[to..];
  }

  /** An allowed move by one step swaps the two neighbours. */
  lemma MoveAdjacentSwaps(blocks: seq<Block>, from: nat, to: nat)
    requires MoveAllowed(blocks, from, to) && (to == from + 1 || from == to + 1)
    ensures MoveBlock(blocks, from, to) == blocks[from := blocks[to]][to := blocks[from]]
  {
    var r := MoveBlock(blocks, from, to);
    var swapped := blocks[from := blocks[to]][to := blocks[from]];
    assert |r| == |swapped|;
    forall i | 0 <= i < |r|
      ensures r[i] == swapped[i]
    {
    }
  }

  /** Moving a block one step and back restores the list: the up and down buttons undo each other. */
  lemma MoveAdjacentUndone(blocks: seq<Block>, from: nat, to: nat)
    requires MoveAllowed(blocks, from, to) && (to == from + 1 || from == to + 1)
    ensures MoveAllowed(MoveBlock(blocks, from, to), to, from)
    ensures MoveBlock(MoveBlock(blocks, from, to), to, from) == blocks
  {
    MoveAdjacentSwaps(blocks, from, to);
    var r := MoveBlock(blocks, from, to);
    SwapKeepsConfigIndex(blocks, from, to);
    MoveAdjacentSwaps(r, to, from);
    assert r[to := r[from]][from := r[to]] == blocks;
  }

  /** Swapping two neighbouring blocks, neither of which is the config block the editor
      finds, leaves that block's index unchanged. */
  lemma SwapKeepsConfigIndex(blocks: seq<Block>, i: nat, j: nat)
    requires i < |blocks| && j < |blocks| && (j == i + 1 || i == j + 1)
    requires i != ConfigIndex(blocks) && j != ConfigIndex(blocks)
    ensures ConfigIndex(blocks[i := blocks[j]][j := blocks[i]]) == ConfigIndex(blocks)
  {
    var s := blocks[i := blocks[j]][j := blocks[i]];
    var c := ConfigIndex(blocks);
    if c >= 0 {
      if i < c && j < c {
        assert forall k :: 0 <= k < c ==> !IsConfig(s[k]);
      } else {
        assert forall k :: 0 <= k <= c ==> s[k] == blocks[k];
      }
      ConfigIndexAt(s, c);
    } else {
      assert forall k :: 0 <= k < |s| ==> !IsConfig(s[k]);
      ConfigIndexNone(s);
    }
  }

  /** `updatePickerOption(blockIndex, optionIndex, patch)`: spread the patch over one option of
      one block. */
  function UpdatePickerOption(blocks: seq<Block>, bi: nat, oi: nat, patch: OptionPatch): (r: seq<Block>)
    requires bi < |blocks| && oi < |blocks[bi].options|
  {
    var options := blocks[bi].options;
    UpdateBlock(blocks, bi, OptionsOnly(options[oi := MergeOption(options[oi], patch)]))
  }

  /** The patch `{ options }`. */
  function OptionsOnly(options: seq<PickerOption>): BlockPatch {
    EmptyPatch.(options := Some(options))
  }

  /** The patch `{ nested }`. */
  function NestedOnly(nested: seq<NestedGroup>): BlockPatch {
    EmptyPatch.(nested := Some(nested))
  }

  lemma MergeOptionsOnly(b: Block, options: seq<PickerOption>)
    ensures Merge(b, OptionsOnly(options)) == b.(options := options)
  {
    assert b.extra + map[] == b.extra;
  }

  lemma MergeNestedOnly(b: Block, nested: seq<NestedGroup>)
    ensures Merge(b, NestedOnly(nested)) == b.(nested := Some(nested))
  {
    assert b.extra + map[] == b.extra;
  }

  /** Only the addressed option of the addressed block changes. */
  lemma UpdatePickerOptionIsLocal(blocks: seq<Block>, bi: nat, oi: nat, patch: OptionPatch)
    requires bi < |blocks| && oi < |blocks[bi].options|
    ensures var r := UpdatePickerOption(blocks, bi, oi, patch);
            var opts := blocks[bi].options;
            && |r| == |blocks| && (forall i :: 0 <= i < |r| && i != bi ==> r[i] == blocks[i])
            && r[bi] == blocks[bi].(options := r[bi].options)
            && |r[bi].options| == |opts| && r[bi].options[oi] == MergeOption(opts[oi], patch)
            && forall j :: 0 <= j < |opts| && j != oi ==> r[bi].options[j] == opts[j]
  {
    var opts := blocks[bi].options;
    MergeOptionsOnly(blocks[bi], opts[oi := MergeOption(opts[oi], patch)]);
  }

  /** The option `addPickerOption` appends when the list holds `n` options. */
  function NewPickerOption(n: nat): PickerOption {
    PickerOption("Option", Slugify("option-" + DecimalString(n + 1)), None, Num(0.0), map["media" := BlackSwatch])
  }

  /** `addPickerOption(blockIndex)`. */
  function AddPickerOption(blocks: seq<Block>, bi: nat): (r: seq<Block>)
    requires bi < |blocks|
  {
    var options := blocks[bi].options;
    UpdateBlock(blocks, bi, OptionsOnly(options + [NewPickerOption(|options|)]))
  }

  /** A new option is appended to the addressed block only, with the value `option-<n+1>`. */
  lemma AddPickerOptionAppends(blocks: seq<Block>, bi: nat)
    requires bi < |blocks|
    ensures var r := AddPickerOption(blocks, bi);
            var n := |blocks[bi].options|;
            && |r| == |blocks| && (forall i :: 0 <= i < |r| && i != bi ==> r[i] == blocks[i])
            && r[bi] == blocks[bi].(options := blocks[bi].options + [NewPickerOption(n)])
            && NewPickerOption(n).value == "option-" + DecimalString(n + 1)
  {
    var opts := blocks[bi].options;
    MergeOptionsOnly(blocks[bi], opts + [NewPickerOption(|opts|)]);
    OptionValueIsSlug(|opts| + 1);
  }

  /** `removePickerOption(blockIndex, optionIndex)`. */
  function RemovePickerOption(blocks: seq<Block>, bi: nat, oi: int): (r: seq<Block>)
    requires bi < |blocks|
  {
    UpdateBlock(blocks, bi, OptionsOnly(RemoveAt(blocks[bi].options, oi)))
  }

  /** Only the addressed option of the addressed block goes; the rest keep their order. */
  lemma RemovePickerOptionIsLocal(blocks: seq<Block>, bi: nat, oi: int)
    requires bi < |blocks|
    ensures var r := RemovePickerOption(blocks, bi, oi);
            && |r| == |blocks| && (forall i :: 0 <= i < |r| && i != bi ==> r[i] == blocks[i])
            && r[bi] == blocks[bi].(options := RemoveAt(blocks[bi].options, oi))
  {
    MergeOptionsOnly(blocks[bi], RemoveAt(blocks[bi].options, oi));
  }

  /** `blk.nested || []`. */
  function NestedOf(b: Block): seq<NestedGroup> {
    if b.nested.Some? then b.nested.value else []
  }

  /** The group `addNestedGroup` appends: conditioned on the block itself, with no value yet. */
  function NewGroup(b: Block): NestedGroup {
    NestedGroup(When(b.id, ""), [])
  }

  /** `addNestedGroup(blockIndex)`. The `nested: []` update of `ensureNestedStructure` is
      superseded by the update that follows it, both being computed from the same list. */
  function AddNestedGroup(blocks: seq<Block>, bi: nat): (r: seq<Block>)
    requires bi < |blocks|
  {
    UpdateBlock(blocks, bi, NestedOnly(NestedOf(blocks[bi]) + [NewGroup(blocks[bi])]))
  }

  /** A new group is appended to the addressed block only, and it is inactive for every
      selection until its `equals` value is set, so it changes no price. */
  lemma AddNestedGroupAppends(blocks: seq<Block>, bi: nat, sel: JsValue)
    requires bi < |blocks|
    ensures var r := AddNestedGroup(blocks, bi);
            && |r| == |blocks| && (forall i :: 0 <= i < |r| && i != bi ==> r[i] == blocks[i])
            && r[bi] == blocks[bi].(nested := Some(NestedOf(blocks[bi]) + [NewGroup(blocks[bi])]))
            && !GroupActive(NewGroup(blocks[bi]), sel)
  {
    MergeNestedOnly(blocks[bi], NestedOf(blocks[bi]) + [NewGroup(blocks[bi])]);
  }

  /** `updateNestedGroup(blockIndex, nestedIndex, patch)`. */
  function UpdateNestedGroup(blocks: seq<Block>, bi: nat, ni: nat, patch: GroupPatch): (r: seq<Block>)
    requires bi < |blocks| && ni < |NestedOf(blocks[bi])|
  {
    var nested := NestedOf(blocks[bi]);
    UpdateBlock(blocks, bi, NestedOnly(nested[ni := MergeGroup(nested[ni], patch)]))
  }

  lemma UpdateNestedGroupIsLocal(blocks: seq<Block>, bi: nat, ni: nat, patch: GroupPatch)
    requires bi < |blocks| && ni < |NestedOf(blocks[bi])|
    ensures var r := UpdateNestedGroup(blocks, bi, ni, patch);
            var nested := NestedOf(blocks[bi]);
            && |r| == |blocks| && (forall i :: 0 <= i < |r| && i != bi ==> r[i] == blocks[i])
            && r[bi] == blocks[bi].(nested := Some(nested[ni := MergeGroup(nested[ni], patch)]))
  {
    var nested := NestedOf(blocks[bi]);
    MergeNestedOnly(blocks[bi], nested[ni := MergeGroup(nested[ni], patch)]);
  }

  /** Replace the items of one group of one block, as the three item edits do. */
  function WithItems(blocks: seq<Block>, bi: nat, ni: nat, items: seq<Block>): (r: seq<Block>)
    requires bi < |blocks| && ni < |NestedOf(blocks[bi])|
  {
    var nested := NestedOf(blocks[bi]);
    UpdateBlock(blocks, bi, NestedOnly(nested[ni := nested[ni].(items := items)]))
  }

  /** Only the items of the addressed group of the addressed block change. */
  lemma WithItemsIsLocal(blocks: seq<Block>, bi: nat, ni: nat, items: seq<Block>)
    requires bi < |blocks| && ni < |NestedOf(blocks[bi])|
    ensures var r := WithItems(blocks, bi, ni, items);
            var nested := NestedOf(blocks[bi]);
            && |r| == |blocks| && (forall i :: 0 <= i < |r| && i != bi ==> r[i] == blocks[i])
            && r[bi] == blocks[bi].(nested := r[bi].nested)
            && r[bi].nested.Some? && |r[bi].nested.value| == |nested|
            && r[bi].nested.value[ni] == nested[ni].(items := items)
            && forall g :: 0 <= g < |nested| && g != ni ==> r[bi].nested.value[g] == nested[g]
  {
    var nested := NestedOf(blocks[bi]);
    MergeNestedOnly(blocks[bi], nested[ni := nested[ni].(items := items)]);
  }

  /** `addNestedItemPicker(blockIndex, nestedIndex)`: a new picker at the end of one group. */
  function AddNestedItemPicker(blocks: seq<Block>, bi: nat, ni: nat, suffix: string): (r: seq<Block>)
    requires bi < |blocks| && ni < |NestedOf(blocks[bi])|
  {
    var items := NestedOf(blocks[bi])[ni].items;
    WithItems(blocks, bi, ni, items + [CreateDefaultBlock("picker", suffix)])
  }

  /** `updateNestedItem(blockIndex, nestedIndex, itemIndex, patch)`. */
  function UpdateNestedItem(blocks: seq<Block>, bi: nat, ni: nat, ii: nat, patch: BlockPatch): (r: seq<Block>)
    requires bi < |blocks| && ni < |NestedOf(blocks[bi])| && ii < |NestedOf(blocks[bi])[ni].items|
  {
    var items := NestedOf(blocks[bi])[ni].items;
    WithItems(blocks, bi, ni, items[ii := Merge(items[ii], patch)])
  }

  /** Only the addressed item changes, and only by the patch. */
  lemma UpdateNestedItemIsLocal(blocks: seq<Block>, bi: nat, ni: nat, ii: nat, patch: BlockPatch)
    requires bi < |blocks| && ni < |NestedOf(blocks[bi])| && ii < |NestedOf(blocks[bi])[ni].items|
    ensures var r := UpdateNestedItem(blocks, bi, ni, ii, patch);
            var items := NestedOf(blocks[bi])[ni].items;
            && |r| == |blocks| && (forall i :: 0 <= i < |r| && i != bi ==> r[i] == blocks[i])
            && r[bi].nested.Some? && ni < |r[bi].nested.value|
            && |r[bi].nested.value[ni].items| == |items|
            && r[bi].nested.value[ni].items[ii] == Merge(items[ii], patch)
            && forall k :: 0 <= k < |items| && k != ii ==> r[bi].nested.value[ni].items[k] == items[k]
  {
    var items := NestedOf(blocks[bi])[ni].items;
    WithItemsIsLocal(blocks, bi, ni, items[ii := Merge(items[ii], patch)]);
  }

  /** `removeNestedItem(blockIndex, nestedIndex, itemIndex)`. */
  function RemoveNestedItem(blocks: seq<Block>, bi: nat, ni: nat, ii: int): (r: seq<Block>)
    requires bi < |blocks| && ni < |NestedOf(blocks[bi])|
  {
    WithItems(blocks, bi, ni, RemoveAt(NestedOf(blocks[bi])[ni].items, ii))
  }

  /** Only the addressed item goes; the group's other items keep their order. */
  lemma RemoveNestedItemIsLocal(blocks: seq<Block>, bi: nat, ni: nat, ii: int)
    requires bi < |blocks| && ni < |NestedOf(blocks[bi])|
    ensures var r := RemoveNestedItem(blocks, bi, ni, ii);
            var items := NestedOf(blocks[bi])[ni].items;
            && |r| == |blocks| && (forall i :: 0 <= i < |r| && i != bi ==> r[i] == blocks[i])
            && r[bi].nested.Some? && ni < |r[bi].nested.value|
            && r[bi].nested.value[ni] == NestedOf(blocks[bi])[ni].(items := RemoveAt(items, ii))
  {
    WithItemsIsLocal(blocks, bi, ni, RemoveAt(NestedOf(blocks[bi])[ni].items, ii));
  }

  /** The truthy ids of the list: `new Set(blocks.map((b) => b.id).filter(Boolean))`. */
  function TruthyIds(blocks: seq<Block>): set<string> {
    set i | 0 <= i < |blocks| && HasTruthyId(blocks[i]) :: blocks[i].id.value
  }

  /** The id a copy is named after: the block's id, or else the slug of its title, its type or
      "block", whichever is first non-empty. */
  function BaseId(b: Block): string {
    if HasTruthyId(b) then b.id.value
    else Slugify(if b.title != "" then b.title else if b.kind != "" then b.kind else "block")
  }

  /** The `n`-th id tried for a copy: `<base>-copy`, then `<base>-copy-2`, `<base>-copy-3`, ... */
  function CopyCandidate(base: string, n: nat): string
    requires n >= 1
  {
    if n == 1 then base + "-copy" else base + "-copy-" + DecimalString(n)
  }

  lemma CopyCandidateInjective(base: string, a: nat, b: nat)
    requires a >= 1 && b >= 1 && CopyCandidate(base, a) == CopyCandidate(base, b)
    ensures a == b
  {
    var p := base + "-copy-";
    if a >= 2 && b >= 2 {
      assert DecimalString(a) == CopyCandidate(base, a)[|p|..];
      assert DecimalString(b) == CopyCandidate(base, b)[|p|..];
      DecimalStringInjective(a, b);
    }
  }

  /** `id` is the first candidate, in the order tried, that is not taken. */
  ghost predicate FirstFreeCopy(base: string, taken: set<string>, id: string) {
    exists n: nat :: n >= 1 && id == CopyCandidate(base, n) && id !in taken
                     && forall k :: 1 <= k < n ==> CopyCandidate(base, k) in taken
  }

  /** Every id in `tried` is one of the first `n - 1` candidates. */
  ghost predicate TriedBelow(base: string, tried: set<string>, n: nat) {
    forall x :: x in tried ==> exists k :: 1 <= k < n && x == CopyCandidate(base, k)
  }

  /** The next candidate has not been tried, so trying it leaves fewer untried taken ids. */
  lemma NextCandidateUntried(base: string, taken: set<string>, tried: set<string>, n: nat)
    requires n >= 1 && TriedBelow(base, tried, n) && tried <= taken && CopyCandidate(base, n) in taken
    ensures CopyCandidate(base, n) !in tried
    ensures TriedBelow(base, tried + {CopyCandidate(base, n)}, n + 1)
    ensures |taken - (tried + {CopyCandidate(base, n)})| < |taken - tried|
  {
    var id := CopyCandidate(base, n);
    forall x | x in tried
      ensures x != id
    {
      var k :| 1 <= k < n && x == CopyCandidate(base, k);
      if x == id {
        CopyCandidateInjective(base, k, n);
      }
    }
    assert (taken - (tried + {id})) + {id} == taken - tried;
  }

  /** The first `n - 1` candidates are all taken. */
  ghost predicate TakenBelow(base: string, taken: set<string>, n: nat) {
    forall k :: 1 <= k < n ==> CopyCandidate(base, k) in taken
  }

  lemma TakenBelowExtend(base: string, taken: set<string>, n: nat)
    requires n >= 1 && TakenBelow(base, taken, n) && CopyCandidate(base, n) in taken
    ensures TakenBelow(base, taken, n + 1)
  {
  }

  /** The `while (existingIds.has(newId))` loop of `duplicateBlock`. */
  method FreshCopyId(base: string, taken: set<string>) returns (newId: string)
    ensures newId !in taken
    ensures FirstFreeCopy(base, taken, newId)
  {
    newId := CopyCandidate(base, 1);
    var counter: nat := 2;
    ghost var tried: set<string> := {};
    while newId in taken
      invariant counter >= 2 && newId == CopyCandidate(base, counter - 1)
      invariant TakenBelow(base, taken, counter - 1)
      invariant tried <= taken && TriedBelow(base, tried, counter - 1)
      decreases |taken - tried|
    {
      NextCandidateUntried(base, taken, tried, counter - 1);
      TakenBelowExtend(base, taken, counter - 1);
      tried := tried + {newId};
      newId := CopyCandidate(base, counter);
      counter := counter + 1;
    }
    assert 1 <= counter - 1 && newId == CopyCandidate(base, counter - 1);
  }

  /** `duplicateBlock(index)`: nothing happens for the config block; otherwise a copy of the
      block under the first free `-copy` id is inserted right after it. */
  method DuplicateBlock(blocks: seq<Block>, index: nat) returns (next: seq<Block>)
    requires index < |blocks|
    ensures index == ConfigIndex(blocks) ==> next == blocks
    ensures index != ConfigIndex(blocks) ==>
              && |next| == |blocks| + 1
              && next[..index + 1] == blocks[..index + 1]
              && next[index + 2..] == blocks[index + 1..]
              && next[index + 1].id.Some?
              && next[index + 1] == blocks[index].(id := next[index + 1].id)
              && next[index + 1].id.value !in TruthyIds(blocks)
              && FirstFreeCopy(BaseId(blocks[index]), TruthyIds(blocks), next[index + 1].id.value)
  {
    if index == ConfigIndex(blocks) {
      return blocks;
    }
    var src := blocks[index];
    var newId := FreshCopyId(BaseId(src), TruthyIds(blocks));
    var clone := src.(id := Some(newId));
    next := InsertAt(blocks, index + 1, clone);
  }

  /** A copy's id differs from every truthy id in the list, and it is never empty, so after
      duplicating, the copy and its source are told apart by id whatever the source's id was. */
  lemma DuplicateIdIsNew(blocks: seq<Block>, index: nat, next: seq<Block>)
    requires index < |blocks| && index != ConfigIndex(blocks)
    requires |next| == |blocks| + 1 && next[..index + 1] == blocks[..index + 1]
    requires next[index + 1].id.Some? && next[index + 1].id.value !in TruthyIds(blocks)
    requires FirstFreeCopy(BaseId(blocks[index]), TruthyIds(blocks), next[index + 1].id.value)
    ensures next[index + 1].id != blocks[index].id
    ensures next[index + 1].id.value != ""
  {
    var n: nat :| n >= 1 && next[index + 1].id.value == CopyCandidate(BaseId(blocks[index]), n);
    CopyCandidateNonEmpty(BaseId(blocks[index]), n);
    if HasTruthyId(blocks[index]) {
      assert blocks[index].id.value in TruthyIds(blocks);
    }
  }

  /** Every candidate ends in `-copy` or `-copy-<n>`, so none is empty. */
  lemma CopyCandidateNonEmpty(base: string, n: nat)
    requires n >= 1
    ensures |CopyCandidate(base, n)| >= 5
  {
  }
}
